/** Concrete request sequences from an empty store. Dates are days since 1970-01-01:
    19723 is 2024-01-01, 19848 is 2024-05-05 and 19853 is 2024-05-10. Fees are in cents. */
module Scenarios {
  import opened Results
  import opened Records
  import Models
  import opened Views

  const House: PropertyInput := PropertyInput("A100", 4, 2, true, 15000, 19723, None)

  /** A property created with code "A100" and four guests is retrieved with four guests, and a
      second property with the same code is refused. */
  lemma CreateRetrieveAndDuplicate()
    ensures PropertyCreate(EmptyStore, House).body == Ok(1)
    ensures var s1 := PropertyCreate(EmptyStore, House).store;
              && PropertyRetrieve(s1, 1).Ok?
              && PropertyRetrieve(s1, 1).value.property.guestLimit == 4
              && PropertyRetrieve(s1, 1).value.property.isAvailable
              && PropertyCreate(s1, House).body == Err(NotUnique("property_code"))
  {
    var s1 := PropertyCreate(EmptyStore, House).store;
    assert s1.properties == map[1 := PropertyOf(House, true)];
  }

  /** A platform outside the choices is refused; "Ab" is accepted. */
  lemma PlatformChoice(s: Store)
    requires 1 in s.properties
    ensures AdvertisementCreate(s, Advertisement("Other", 1000, 1)).body == Err(InvalidChoice("platform"))
    ensures AdvertisementCreate(s, Advertisement("Ab", 1000, 1)).body.Ok?
  {
  }

  /** Checking in on 2024-05-10 and out on 2024-05-05 is refused with the date-range error and
      leaves the store unchanged; the other way round is accepted. */
  lemma StayDates(s: Store)
    requires 1 in s.advertisements
    requires forall k :: k in s.reservations ==> s.reservations[k].code != "R1"
    ensures var bad := ReservationInput("R1", 19853, 19848, 50000, None, 2, 1);
              ReservationCreate(s, bad) == Reply(s, Err(InvalidDateRange))
    ensures var good := ReservationInput("R1", 19848, 19853, 50000, None, 2, 1);
              ReservationCreate(s, good).body.Ok?
  {
  }

  /** A code holding a NUL character is refused, as the serializer's text fields refuse it. */
  lemma NulCodeRefused()
    ensures Models.CheckProperty(EmptyStore, None, Property("A\0", 1, 1, true, 0, 0, true))
         == Err(InvalidField("property_code"))
  {
    assert "A\0"[1] == '\0';
  }

  /** A direct `save` of a negative guest count passes `clean` but is refused by the column's
      non-negative check. */
  lemma NegativeGuestsRefusedBySave(s: Store)
    requires 1 in s.advertisements
    requires forall k :: k in s.reservations ==> s.reservations[k].code != "R"
    ensures Models.SaveReservation(s, 5, Reservation("R", 1, 2, 100, "", -1, 1))
         == Err(InvalidField("guest_count"))
  {
  }
}
