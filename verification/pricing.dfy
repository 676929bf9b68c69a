/** Nights, the confirmed total and the live estimate of the booking form. */
module Pricing {
  import opened Wrappers
  import opened Time
  import opened Catalog
  import opened Validation

  /** `Math.ceil((checkOut - checkIn) / DayMs)`, taken over the exact quotient. */
  function Nights(checkIn: int, checkOut: int): (n: int)
    ensures (n - 1) * DayMs < checkOut - checkIn <= n * DayMs
  {
    -((checkIn - checkOut) / DayMs)
  }

  /** The ceiling is the only integer bracketing the stay that way. */
  lemma NightsUnique(checkIn: int, checkOut: int, n: int)
    requires (n - 1) * DayMs < checkOut - checkIn <= n * DayMs
    ensures Nights(checkIn, checkOut) == n
  {
    var m := Nights(checkIn, checkOut);
    assert (m - 1) * DayMs < n * DayMs && (n - 1) * DayMs < m * DayMs;
  }

  /** A check-out strictly after the check-in always costs at least one night. */
  lemma NightsAtLeastOne(checkIn: int, checkOut: int)
    requires checkIn < checkOut
    ensures Nights(checkIn, checkOut) >= 1
  {
  }

  /** A stay of a whole number of days costs exactly that many nights. */
  lemma NightsWholeDays(checkIn: int, days: int)
    ensures Nights(checkIn, checkIn + days * DayMs) == days
  {
    NightsUnique(checkIn, checkIn + days * DayMs, days);
  }

  /** What the confirmation screen keeps: the validated values plus the nights. */
  datatype BookingSummary = BookingSummary(name: string, email: string, checkIn: int,
                                           checkOut: int, roomType: string, nights: int)

  /** The summary stored on a valid submit (`{ ...data, nights }`). */
  function Summarize(b: Booking): (s: BookingSummary)
    ensures s.name == b.name && s.email == b.email && s.roomType == b.roomType
    ensures s.checkIn == b.checkIn && s.checkOut == b.checkOut
    ensures (s.nights - 1) * DayMs < b.checkOut - b.checkIn <= s.nights * DayMs
    ensures b.checkIn < b.checkOut ==> s.nights >= 1
  {
    BookingSummary(b.name, b.email, b.checkIn, b.checkOut, b.roomType,
                   Nights(b.checkIn, b.checkOut))
  }

  /** The total shown on the confirmation screen: the nightly price of the
      catalog entry named by the summary times the nights, or 0 when the
      catalog has no such entry. */
  function TotalPrice(s: BookingSummary, catalog: seq<RoomType>): (total: int)
    ensures !Offers(catalog, s.roomType) ==> total == 0
    ensures Offers(catalog, s.roomType) ==>
      exists i :: 0 <= i < |catalog| && catalog[i].id == s.roomType
                  && total == catalog[i].price * s.nights
  {
    match Find(catalog, s.roomType)
    case Some(room) => room.price * s.nights
    case None => 0
  }

  /** With unique identifiers the total is the named entry's price times nights. */
  lemma TotalPriceOfEntry(s: BookingSummary, catalog: seq<RoomType>, i: int)
    requires UniqueIds(catalog)
    requires 0 <= i < |catalog| && catalog[i].id == s.roomType
    ensures TotalPrice(s, catalog) == catalog[i].price * s.nights
  {
    FindUniqueEntry(catalog, i);
  }

  /** The estimated total shown while editing: present once a catalog room and
      both dates are picked, and computed by the same formula as the
      confirmation, whether or not the form would validate. */
  function Preview(draft: RawForm, catalog: seq<RoomType>): (estimate: Option<int>)
    ensures estimate.Some? <==>
      Offers(catalog, draft.roomType) && draft.checkIn.Some? && draft.checkOut.Some?
    ensures estimate.Some? ==>
      exists i :: 0 <= i < |catalog| && catalog[i].id == draft.roomType
                  && estimate.value == catalog[i].price * Nights(draft.checkIn.value, draft.checkOut.value)
  {
    match Find(catalog, draft.roomType)
    case Some(room) =>
      if draft.checkIn.Some? && draft.checkOut.Some?
      then Some(room.price * Nights(draft.checkIn.value, draft.checkOut.value))
      else None
    case None => None
  }

  /** The estimate shown before submitting equals the total confirmed after
      submitting the same values; a room outside the catalog shows no estimate
      and is confirmed at a total of 0. */
  lemma PreviewEqualsConfirmation(draft: RawForm, isEmail: string -> bool, catalog: seq<RoomType>)
    requires Validate(draft, isEmail).Success?
    ensures Offers(catalog, draft.roomType) ==>
      Preview(draft, catalog) == Some(TotalPrice(Summarize(Validate(draft, isEmail).value), catalog))
    ensures !Offers(catalog, draft.roomType) ==>
      Preview(draft, catalog).None? && TotalPrice(Summarize(Validate(draft, isEmail).value), catalog) == 0
  {
  }

  /** For a room with a positive price the estimate is positive exactly when
      check-out is after check-in; reversed dates show a total of 0 or less. */
  lemma PreviewSign(draft: RawForm, catalog: seq<RoomType>)
    requires Preview(draft, catalog).Some?
    requires forall i :: 0 <= i < |catalog| ==> catalog[i].price > 0
    ensures Preview(draft, catalog).value > 0 <==> draft.checkIn.value < draft.checkOut.value
  {
    var room := Find(catalog, draft.roomType).value;
    var n := Nights(draft.checkIn.value, draft.checkOut.value);
    assert room.price > 0;
    if draft.checkIn.value < draft.checkOut.value {
      assert n >= 1;
      assert room.price * n >= room.price;
    } else {
      assert n <= 0;
      assert room.price * n <= 0;
    }
  }
}
