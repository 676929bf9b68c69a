/** The room-type reference data of the booking form and the lookup the form
    performs on it (`roomTypes.find(room => room.value === id)`). */
module Catalog {
  import opened Wrappers

  /** One catalog entry: its identifier (`value`), display name (`label`) and nightly price. */
  datatype RoomType = RoomType(id: string, name: string, price: int)

  /** The fixed three-entry catalog, in the form's order. */
  const Rooms: seq<RoomType> := [
    RoomType("standard", "Standard Room", 100),
    RoomType("deluxe", "Deluxe Room", 150),
    RoomType("suite", "Suite", 250)
  ]

  /** No two entries share an identifier. */
  predicate UniqueIds(catalog: seq<RoomType>) {
    forall i, j :: 0 <= i < j < |catalog| ==> catalog[i].id != catalog[j].id
  }

  /** Some entry carries identifier `id`. */
  predicate Offers(catalog: seq<RoomType>, id: string) {
    exists i :: 0 <= i < |catalog| && catalog[i].id == id
  }

  /** The first entry whose identifier is `id`, or None when there is none. */
  function Find(catalog: seq<RoomType>, id: string): (r: Option<RoomType>)
    ensures r.None? <==> !Offers(catalog, id)
    ensures r.Some? ==> exists i :: 0 <= i < |catalog| && catalog[i] == r.value && r.value.id == id
                                    && forall j :: 0 <= j < i ==> catalog[j].id != id
  {
    if |catalog| == 0 then None
    else if catalog[0].id == id then Some(catalog[0])
    else
      var r := Find(catalog[1..], id);
      assert forall i :: 0 < i < |catalog| ==> catalog[i] == catalog[1..][i - 1];
      if r.Some? then
        var k :| 0 <= k < |catalog[1..]| && catalog[1..][k] == r.value && r.value.id == id
                 && forall j :: 0 <= j < k ==> catalog[1..][j].id != id;
        assert catalog[k + 1] == r.value;
        assert forall j :: 0 < j < k + 1 ==> catalog[j].id != id by {
          forall j | 0 < j < k + 1 ensures catalog[j].id != id {
            assert catalog[j] == catalog[1..][j - 1];
          }
        }
        r
      else
        r
  }

  /** In a catalog with unique identifiers, the lookup returns exactly the entry
      that carries the identifier. */
  lemma FindUniqueEntry(catalog: seq<RoomType>, i: int)
    requires UniqueIds(catalog)
    requires 0 <= i < |catalog|
    ensures Find(catalog, catalog[i].id) == Some(catalog[i])
  {
    var r := Find(catalog, catalog[i].id);
    assert Offers(catalog, catalog[i].id);
    var k :| 0 <= k < |catalog| && catalog[k] == r.value && r.value.id == catalog[i].id
             && forall j :: 0 <= j < k ==> catalog[j].id != catalog[i].id;
    assert k == i;
  }

  /** The fixed catalog has three entries with distinct identifiers and positive prices. */
  lemma RoomsWellFormed()
    ensures |Rooms| == 3
    ensures UniqueIds(Rooms)
    ensures forall i :: 0 <= i < |Rooms| ==> Rooms[i].price > 0
  {
  }

  /** What the lookup answers for the three fixed identifiers, and that it finds
      nothing for any other identifier. */
  lemma FindInRooms(id: string)
    ensures id == "standard" ==> Find(Rooms, id) == Some(RoomType("standard", "Standard Room", 100))
    ensures id == "deluxe" ==> Find(Rooms, id) == Some(RoomType("deluxe", "Deluxe Room", 150))
    ensures id == "suite" ==> Find(Rooms, id) == Some(RoomType("suite", "Suite", 250))
    ensures Find(Rooms, id).None? <==> id != "standard" && id != "deluxe" && id != "suite"
  {
    RoomsWellFormed();
    if id == "standard" {
      FindUniqueEntry(Rooms, 0);
    } else if id == "deluxe" {
      FindUniqueEntry(Rooms, 1);
    } else if id == "suite" {
      FindUniqueEntry(Rooms, 2);
    } else {
      assert !Offers(Rooms, id);
    }
  }
}
