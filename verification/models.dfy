/** The behaviour the three model classes give the store: the availability manager, the
    declared field checks, the reservation save guard and the cascading deletes. */
module Models {
  import opened Results
  import opened Fields
  import opened Records

  // ---- AvailableManager ----

  /** `Property.available`: the stored properties whose availability flag is set, and no others. */
  function Available(s: Store): (q: map<Pk, Property>)
    ensures q.Keys <= s.properties.Keys
    ensures forall k :: k in s.properties ==> (k in q <==> s.properties[k].isAvailable)
    ensures forall k :: k in q ==> q[k] == s.properties[k] && q[k].isAvailable
  {
    map k | k in s.properties && s.properties[k].isAvailable :: s.properties[k]
  }

  // ---- declared field constraints, checked in declaration order ----

  /** The checks a Property write passes before it is stored: the field declarations and
      the uniqueness of `property_code` among all stored properties other than `self`. */
  function CheckProperty(s: Store, self: Option<Pk>, p: Property): (c: Result<()>)
    ensures c.Ok? <==> PropertyFieldsValid(p) && PropertyCodeFree(s, self, p.code)
    ensures IsCharField(p.code, 30) && !PropertyCodeFree(s, self, p.code) ==>
              c == Err(NotUnique("property_code"))
  {
    if !IsCharField(p.code, 30) then Err(InvalidField("property_code"))
    else if !PropertyCodeFree(s, self, p.code) then Err(NotUnique("property_code"))
    else if !IsPositiveInteger(p.guestLimit) then Err(InvalidField("guest_limit"))
    else if !IsPositiveInteger(p.bathrooms) then Err(InvalidField("number_of_bathrooms"))
    else if !IsDecimal(p.cleaningFee, 6) then Err(InvalidField("cleaning_fee"))
    else Ok(())
  }

  /** The checks an Advertisement write passes: `platform` among the choices, the fee's digits,
      and a `property` key naming a stored property (any property: the reference is resolved
      through the default manager, which does not filter on availability). */
  function CheckAdvertisement(s: Store, a: Advertisement): (c: Result<()>)
    ensures c.Ok? <==> AdvertisementFieldsValid(a) && a.property in s.properties
    ensures !IsPlatform(a.platform) ==> c == Err(InvalidChoice("platform"))
  {
    if !IsPlatform(a.platform) then Err(InvalidChoice("platform"))
    else if !IsDecimal(a.platformFee, 8) then Err(InvalidField("platform_fee"))
    else if a.property !in s.properties then Err(InvalidField("property"))
    else Ok(())
  }

  /** The field checks a Reservation write passes before `save` is reached: the field
      declarations, the uniqueness of `reservation_code`, and a stored advertisement. */
  function CheckReservationFields(s: Store, self: Option<Pk>, r: Reservation): (c: Result<()>)
    ensures c.Ok? <==> && ReservationFieldsValid(r)
                       && ReservationCodeFree(s, self, r.code)
                       && r.advertisement in s.advertisements
    ensures c != Err(InvalidDateRange)
  {
    if !IsCharField(r.code, 100) then Err(InvalidField("reservation_code"))
    else if !ReservationCodeFree(s, self, r.code) then Err(NotUnique("reservation_code"))
    else if !IsDecimal(r.totalPrice, 8) then Err(InvalidField("total_price"))
    else if !IsText(r.comment) then Err(InvalidField("comment"))
    else if !IsPositiveInteger(r.guestCount) then Err(InvalidField("guest_count"))
    else if r.advertisement !in s.advertisements then Err(InvalidField("advertisement"))
    else Ok(())
  }

  // ---- Reservation.clean / Reservation.save ----

  /** `Reservation.clean`: a stay must check in strictly before it checks out. */
  function Clean(r: Reservation): (c: Result<()>)
    ensures c.Ok? <==> r.checkIn < r.checkOut
    ensures c.Err? ==> c.error == InvalidDateRange
  {
    if r.checkIn >= r.checkOut then Err(InvalidDateRange) else Ok(())
  }

  /** `Reservation.save` writing `r` under key `pk`, an insert when `pk` is new and an update
      otherwise: `clean` runs first, then the database's constraints: the unique code, the
      foreign key, and the check that a `PositiveIntegerField` column is not negative. */
  function SaveReservation(s: Store, pk: Pk, r: Reservation): (t: Result<Store>)
    ensures t.Ok? <==> && r.checkIn < r.checkOut
                       && ReservationCodeFree(s, Some(pk), r.code)
                       && r.advertisement in s.advertisements
                       && 0 <= r.guestCount
    ensures r.checkIn >= r.checkOut ==> t == Err(InvalidDateRange)
    ensures t.Ok? ==> && t.value.reservations == s.reservations[pk := r]
                      && t.value.properties == s.properties
                      && t.value.advertisements == s.advertisements
                      && pk < t.value.nextReservation
  {
    if Clean(r).Err? then Err(Clean(r).error)
    else if !ReservationCodeFree(s, Some(pk), r.code) then Err(NotUnique("reservation_code"))
    else if r.advertisement !in s.advertisements then Err(InvalidField("advertisement"))
    else if r.guestCount < 0 then Err(InvalidField("guest_count"))
    else
      var next := if pk < s.nextReservation then s.nextReservation else pk + 1;
      Ok(s.(reservations := s.reservations[pk := r], nextReservation := next))
  }

  // ---- deletes, cascading along the foreign keys ----

  /** Deleting one reservation: nothing references a reservation, so nothing else goes. */
  function DeleteReservation(s: Store, pk: Pk): (t: Store)
    ensures t.reservations.Keys == s.reservations.Keys - {pk}
    ensures forall k :: k in t.reservations ==> t.reservations[k] == s.reservations[k]
    ensures t.properties == s.properties && t.advertisements == s.advertisements
  {
    s.(reservations := s.reservations - {pk})
  }

  /** Deleting an advertisement takes the reservations that reference it along. */
  function DeleteAdvertisement(s: Store, pk: Pk): (t: Store)
    ensures t.advertisements.Keys == s.advertisements.Keys - {pk}
    ensures forall k :: k in t.advertisements ==> t.advertisements[k] == s.advertisements[k]
    ensures forall k :: k in s.reservations ==>
              (k in t.reservations <==> s.reservations[k].advertisement != pk)
    ensures forall k :: k in t.reservations ==> k in s.reservations && t.reservations[k] == s.reservations[k]
    ensures t.properties == s.properties
  {
    s.(advertisements := s.advertisements - {pk},
       reservations := map k | k in s.reservations && s.reservations[k].advertisement != pk
                          :: s.reservations[k])
  }

  /** The advertisements that reference property `pk`. */
  function AdvertisementsOf(s: Store, pk: Pk): set<Pk> {
    set a | a in s.advertisements && s.advertisements[a].property == pk
  }

  /** Deleting a property takes along the advertisements that reference it and, transitively,
      the reservations that reference those advertisements. */
  function DeleteProperty(s: Store, pk: Pk): (t: Store)
    ensures t.properties.Keys == s.properties.Keys - {pk}
    ensures forall k :: k in t.properties ==> t.properties[k] == s.properties[k]
    ensures forall a :: a in s.advertisements ==>
              (a in t.advertisements <==> s.advertisements[a].property != pk)
    ensures forall a :: a in t.advertisements ==>
              a in s.advertisements && t.advertisements[a] == s.advertisements[a]
    ensures forall k :: k in s.reservations ==>
              (k in t.reservations <==>
                 !(s.reservations[k].advertisement in s.advertisements
                   && s.advertisements[s.reservations[k].advertisement].property == pk))
    ensures forall k :: k in t.reservations ==> k in s.reservations && t.reservations[k] == s.reservations[k]
  {
    var doomed := AdvertisementsOf(s, pk);
    s.(properties := s.properties - {pk},
       advertisements := s.advertisements - doomed,
       reservations := map k | k in s.reservations && s.reservations[k].advertisement !in doomed
                          :: s.reservations[k])
  }
}
