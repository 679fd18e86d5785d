/** The three linked record types, the store that holds them, and the invariants every
    reachable store keeps. */
module Records {
  import opened Results
  import opened Fields

  /** Primary keys, allocated from 1 upwards by an autoincrement counter per table. */
  type Pk = nat

  datatype Property = Property(
    code: string,
    guestLimit: int,
    bathrooms: int,
    acceptsAnimals: bool,
    cleaningFee: int,     // cents
    activationDate: int,  // day ordinal
    isAvailable: bool)

  datatype Advertisement = Advertisement(
    platform: string,
    platformFee: int,     // cents
    property: Pk)

  datatype Reservation = Reservation(
    code: string,
    checkIn: int,         // day ordinal
    checkOut: int,        // day ordinal
    totalPrice: int,      // cents
    comment: string,
    guestCount: int,
    advertisement: Pk)

  datatype Store = Store(
    properties: map<Pk, Property>,
    advertisements: map<Pk, Advertisement>,
    reservations: map<Pk, Reservation>,
    nextProperty: Pk,
    nextAdvertisement: Pk,
    nextReservation: Pk)

  const EmptyStore: Store := Store(map[], map[], map[], 1, 1, 1)

  // ---- declared field constraints, per record ----

  predicate PropertyFieldsValid(p: Property) {
    && IsCharField(p.code, 30)
    && IsPositiveInteger(p.guestLimit)
    && IsPositiveInteger(p.bathrooms)
    && IsDecimal(p.cleaningFee, 6)
  }

  predicate AdvertisementFieldsValid(a: Advertisement) {
    && IsPlatform(a.platform)
    && IsDecimal(a.platformFee, 8)
  }

  predicate ReservationFieldsValid(r: Reservation) {
    && IsCharField(r.code, 100)
    && IsDecimal(r.totalPrice, 8)
    && IsText(r.comment)
    && IsPositiveInteger(r.guestCount)
  }

  // ---- uniqueness of codes; `self` is the record being updated, None on an insert ----

  predicate PropertyCodeFree(s: Store, self: Option<Pk>, code: string) {
    forall k :: k in s.properties && Some(k) != self ==> s.properties[k].code != code
  }

  predicate ReservationCodeFree(s: Store, self: Option<Pk>, code: string) {
    forall k :: k in s.reservations && Some(k) != self ==> s.reservations[k].code != code
  }

  // ---- store invariants ----

  predicate KeysBelowCounters(s: Store) {
    && (forall k :: k in s.properties ==> k < s.nextProperty)
    && (forall k :: k in s.advertisements ==> k < s.nextAdvertisement)
    && (forall k :: k in s.reservations ==> k < s.nextReservation)
  }

  predicate PropertyCodesUnique(s: Store) {
    forall k :: k in s.properties ==> PropertyCodeFree(s, Some(k), s.properties[k].code)
  }

  predicate ReservationCodesUnique(s: Store) {
    forall k :: k in s.reservations ==> ReservationCodeFree(s, Some(k), s.reservations[k].code)
  }

  /** Every foreign key names a stored parent. */
  predicate ReferencesResolve(s: Store) {
    && (forall a :: a in s.advertisements ==> s.advertisements[a].property in s.properties)
    && (forall r :: r in s.reservations ==> s.reservations[r].advertisement in s.advertisements)
  }

  predicate StayDatesOrdered(s: Store) {
    forall r :: r in s.reservations ==> s.reservations[r].checkIn < s.reservations[r].checkOut
  }

  /** What the database and `Reservation.save` guarantee of every stored state. */
  predicate Integrity(s: Store) {
    && KeysBelowCounters(s)
    && PropertyCodesUnique(s)
    && ReservationCodesUnique(s)
    && ReferencesResolve(s)
    && StayDatesOrdered(s)
  }

  /** Every stored record satisfies its declared field constraints. */
  predicate FieldsValid(s: Store) {
    && (forall k :: k in s.properties ==> PropertyFieldsValid(s.properties[k]))
    && (forall k :: k in s.advertisements ==> AdvertisementFieldsValid(s.advertisements[k]))
    && (forall k :: k in s.reservations ==> ReservationFieldsValid(s.reservations[k]))
  }

  predicate Consistent(s: Store) {
    Integrity(s) && FieldsValid(s)
  }
}
