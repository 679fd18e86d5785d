/** The API views over the store. Property views see the store through the availability
    manager; Advertisement and Reservation views see every stored record. A write answers
    with the store after the request and a body; a rejected write answers with the store it
    was given. */
module Views {
  import opened Results
  import opened Fields
  import opened Records
  import Models

  datatype Reply<T> = Reply(store: Store, body: Result<T>)

  // ---- request payloads ----

  /** A Property payload; `isAvailable` may be omitted, the only Property field with a default. */
  datatype PropertyInput = PropertyInput(
    code: string,
    guestLimit: int,
    bathrooms: int,
    acceptsAnimals: bool,
    cleaningFee: int,
    activationDate: int,
    isAvailable: Option<bool>)

  /** A Reservation payload; `comment` may be omitted, being declared blank-able. */
  datatype ReservationInput = ReservationInput(
    code: string,
    checkIn: int,
    checkOut: int,
    totalPrice: int,
    comment: Option<string>,
    guestCount: int,
    advertisement: Pk)

  /** The record a Property payload describes; an omitted flag takes the value `ifOmitted`. */
  function PropertyOf(input: PropertyInput, ifOmitted: bool): Property {
    Property(input.code, input.guestLimit, input.bathrooms, input.acceptsAnimals,
             input.cleaningFee, input.activationDate,
             if input.isAvailable.Some? then input.isAvailable.value else ifOmitted)
  }

  /** The record a Reservation payload describes; an omitted comment is stored empty. */
  function ReservationOf(input: ReservationInput): Reservation {
    Reservation(input.code, input.checkIn, input.checkOut, input.totalPrice,
                if input.comment.Some? then input.comment.value else "",
                input.guestCount, input.advertisement)
  }

  // ---- Property views, all over the available queryset ----

  /** The Property list view. */
  function PropertyList(s: Store): (r: map<Pk, Property>)
    ensures forall k :: k in r <==> k in s.properties && s.properties[k].isAvailable
    ensures forall k :: k in r ==> r[k] == s.properties[k]
  {
    Models.Available(s)
  }

  /** What the retrieve view answers with: the record, or the "details unavailable" message. */
  datatype Shown = Record(property: Property) | Message(text: string)

  const UnavailableMessage: string := "Informações do imóvel indisponíveis no momento."

  /** The Property retrieve view: the key is looked up in the available queryset, and the
      record found is then checked once more for availability before it is shown. */
  function PropertyRetrieve(s: Store, pk: Pk): (r: Result<Shown>)
    ensures r.Ok? <==> pk in s.properties && s.properties[pk].isAvailable
    ensures r.Ok? ==> r.value == Record(s.properties[pk])
    ensures r.Err? ==> r.error == NotFound
  {
    var queryset := Models.Available(s);
    if pk !in queryset then Err(NotFound)
    else
      var instance := queryset[pk];
      if instance.isAvailable then Ok(Record(instance))
      else Ok(Message(UnavailableMessage))
  }

  /** The Property create view: a new record under the next key; an omitted availability flag
      defaults to true. */
  function PropertyCreate(s: Store, input: PropertyInput): (r: Reply<Pk>)
    ensures r.body.Ok? <==> && PropertyFieldsValid(PropertyOf(input, true))
                            && PropertyCodeFree(s, None, input.code)
    ensures r.body.Err? ==> r.store == s
    ensures r.body.Ok? ==>
              && r.body.value == s.nextProperty
              && r.store.properties == s.properties[s.nextProperty := PropertyOf(input, true)]
              && r.store.advertisements == s.advertisements
              && r.store.reservations == s.reservations
    ensures r.body.Ok? && input.isAvailable.None? ==> r.store.properties[r.body.value].isAvailable
  {
    var pk := s.nextProperty;
    var p := PropertyOf(input, true);
    var check := Models.CheckProperty(s, None, p);
    if check.Err? then Reply(s, Err(check.error))
    else Reply(s.(properties := s.properties[pk := p], nextProperty := pk + 1), Ok(pk))
  }

  /** The Property update view (a full payload): only a property in the available queryset can
      be found; an omitted flag keeps the stored one; the code stays unique among the others. */
  function PropertyUpdate(s: Store, pk: Pk, input: PropertyInput): (r: Reply<Property>)
    ensures !(pk in s.properties && s.properties[pk].isAvailable) ==> r == Reply(s, Err(NotFound))
    ensures r.body.Err? ==> r.store == s
    ensures r.body.Ok? <==> && pk in s.properties && s.properties[pk].isAvailable
                            && PropertyFieldsValid(PropertyOf(input, true))
                            && PropertyCodeFree(s, Some(pk), input.code)
    ensures r.body.Ok? ==>
              && r.body.value == PropertyOf(input, true)
              && r.store == s.(properties := s.properties[pk := r.body.value])
  {
    var queryset := Models.Available(s);
    if pk !in queryset then Reply(s, Err(NotFound))
    else
      var p := PropertyOf(input, queryset[pk].isAvailable);
      var check := Models.CheckProperty(s, Some(pk), p);
      if check.Err? then Reply(s, Err(check.error))
      else Reply(s.(properties := s.properties[pk := p]), Ok(p))
  }

  /** The Property destroy view: only a property in the available queryset can be found;
      its advertisements and their reservations go with it. */
  function PropertyDestroy(s: Store, pk: Pk): (r: Reply<()>)
    ensures r.body.Ok? <==> pk in s.properties && s.properties[pk].isAvailable
    ensures r.body.Err? ==> r == Reply(s, Err(NotFound))
    ensures r.body.Ok? ==> r.store == Models.DeleteProperty(s, pk)
  {
    if pk !in Models.Available(s) then Reply(s, Err(NotFound))
    else Reply(Models.DeleteProperty(s, pk), Ok(()))
  }

  // ---- Advertisement views, over all advertisements ----

  /** The Advertisement create view. */
  function AdvertisementCreate(s: Store, a: Advertisement): (r: Reply<Pk>)
    ensures r.body.Ok? <==> AdvertisementFieldsValid(a) && a.property in s.properties
    ensures !IsPlatform(a.platform) ==> r == Reply(s, Err(InvalidChoice("platform")))
    ensures r.body.Err? ==> r.store == s
    ensures r.body.Ok? ==>
              && r.body.value == s.nextAdvertisement
              && r.store.advertisements == s.advertisements[s.nextAdvertisement := a]
              && r.store.properties == s.properties
              && r.store.reservations == s.reservations
  {
    var check := Models.CheckAdvertisement(s, a);
    if check.Err? then Reply(s, Err(check.error))
    else
      var pk := s.nextAdvertisement;
      Reply(s.(advertisements := s.advertisements[pk := a], nextAdvertisement := pk + 1), Ok(pk))
  }

  /** The retrieve half of the Advertisement detail view. */
  function AdvertisementRetrieve(s: Store, pk: Pk): (r: Result<Advertisement>)
    ensures r.Ok? <==> pk in s.advertisements
    ensures r.Ok? ==> r.value == s.advertisements[pk]
    ensures r.Err? ==> r.error == NotFound
  {
    if pk in s.advertisements then Ok(s.advertisements[pk]) else Err(NotFound)
  }

  /** The update half of the Advertisement detail view (a full payload). */
  function AdvertisementUpdate(s: Store, pk: Pk, a: Advertisement): (r: Reply<Advertisement>)
    ensures pk !in s.advertisements ==> r == Reply(s, Err(NotFound))
    ensures r.body.Ok? <==> && pk in s.advertisements
                            && AdvertisementFieldsValid(a) && a.property in s.properties
    ensures r.body.Err? ==> r.store == s
    ensures r.body.Ok? ==> r.store == s.(advertisements := s.advertisements[pk := a])
  {
    if pk !in s.advertisements then Reply(s, Err(NotFound))
    else
      var check := Models.CheckAdvertisement(s, a);
      if check.Err? then Reply(s, Err(check.error))
      else Reply(s.(advertisements := s.advertisements[pk := a]), Ok(a))
  }

  // ---- Reservation views, over all reservations ----

  /** The Reservation create view: the payload's fields are checked, then the record is
      written through `Reservation.save`, whose `clean` rejects an inverted stay. */
  function ReservationCreate(s: Store, input: ReservationInput): (r: Reply<Pk>)
    ensures r.body.Ok? <==> && ReservationFieldsValid(ReservationOf(input))
                            && ReservationCodeFree(s, None, input.code)
                            && input.advertisement in s.advertisements
                            && input.checkIn < input.checkOut
    ensures r.body == Err(InvalidDateRange) <==>
              && ReservationFieldsValid(ReservationOf(input))
              && ReservationCodeFree(s, None, input.code)
              && input.advertisement in s.advertisements
              && input.checkIn >= input.checkOut
    ensures r.body.Err? ==> r.store == s
    ensures r.body.Ok? ==>
              && r.body.value == s.nextReservation
              && r.store.reservations == s.reservations[s.nextReservation := ReservationOf(input)]
              && r.store.properties == s.properties
              && r.store.advertisements == s.advertisements
  {
    var pk := s.nextReservation;
    var rec := ReservationOf(input);
    var check := Models.CheckReservationFields(s, None, rec);
    if check.Err? then Reply(s, Err(check.error))
    else
      match Models.SaveReservation(s, pk, rec)
      case Err(e) => Reply(s, Err(e))
      case Ok(t) => Reply(t, Ok(pk))
  }

  /** The retrieve half of the Reservation detail view. */
  function ReservationRetrieve(s: Store, pk: Pk): (r: Result<Reservation>)
    ensures r.Ok? <==> pk in s.reservations
    ensures r.Ok? ==> r.value == s.reservations[pk]
    ensures r.Err? ==> r.error == NotFound
  {
    if pk in s.reservations then Ok(s.reservations[pk]) else Err(NotFound)
  }

  /** The destroy half of the Reservation detail view. */
  function ReservationDestroy(s: Store, pk: Pk): (r: Reply<()>)
    ensures r.body.Ok? <==> pk in s.reservations
    ensures r.body.Err? ==> r == Reply(s, Err(NotFound))
    ensures r.body.Ok? ==>
              && r.store.reservations.Keys == s.reservations.Keys - {pk}
              && (forall k :: k in r.store.reservations ==> r.store.reservations[k] == s.reservations[k])
              && r.store.properties == s.properties
              && r.store.advertisements == s.advertisements
  {
    if pk !in s.reservations then Reply(s, Err(NotFound))
    else Reply(Models.DeleteReservation(s, pk), Ok(()))
  }

  // ---- list views over the full querysets ----

  /** A key larger than every key of `m`: where the scan of a table can stop. */
  method KeyBound<V>(m: map<Pk, V>) returns (b: Pk)
    ensures forall k :: k in m ==> k < b
  {
    b := 0;
    var rest := m.Keys;
    while rest != {}
      invariant rest <= m.Keys
      invariant forall k :: k in m && k !in rest ==> k < b
      decreases rest
    {
      var k :| k in rest;
      if b <= k {
        b := k + 1;
      }
      rest := rest - {k};
    }
  }

  /** `x` comes before `y` in the advertisement listing: by platform, then by key. */
  predicate ListedBefore(x: (Pk, Advertisement), y: (Pk, Advertisement)) {
    || PlatformRank(x.1.platform) < PlatformRank(y.1.platform)
    || (PlatformRank(x.1.platform) == PlatformRank(y.1.platform) && x.0 < y.0)
  }

  /** `(k, a)` occurs in the listing `r`. */
  predicate Listed<V(==)>(r: seq<(Pk, V)>, k: Pk, v: V) {
    exists i :: 0 <= i < |r| && r[i] == (k, v)
  }

  /** Every entry of the listing `r` is a stored record. */
  predicate Sound<V(==)>(m: map<Pk, V>, r: seq<(Pk, V)>) {
    forall i :: 0 <= i < |r| ==> r[i].0 in m && m[r[i].0] == r[i].1
  }

  predicate InListingOrder(r: seq<(Pk, Advertisement)>) {
    forall i, j :: 0 <= i < j < |r| ==> ListedBefore(r[i], r[j])
  }

  /** One pass of the advertisement listing: appends the advertisements of platform `c`, in
      key order, to a listing that already holds those of every platform before `c`. */
  method AppendPlatform(ads: map<Pk, Advertisement>, c: nat, bound: Pk, r: seq<(Pk, Advertisement)>)
    returns (r': seq<(Pk, Advertisement)>)
    requires c < |PlatformCodes|
    requires forall k :: k in ads ==> k < bound
    requires Sound(ads, r) && InListingOrder(r)
    requires forall i :: 0 <= i < |r| ==> PlatformRank(r[i].1.platform) < c
    requires forall k :: k in ads && PlatformRank(ads[k].platform) < c ==> Listed(r, k, ads[k])
    ensures Sound(ads, r') && InListingOrder(r')
    ensures forall i :: 0 <= i < |r'| ==> PlatformRank(r'[i].1.platform) <= c
    ensures forall k :: k in ads && PlatformRank(ads[k].platform) <= c ==> Listed(r', k, ads[k])
  {
    r' := r;
    var k := 0;
    while k < bound
      invariant k <= bound
      invariant Sound(ads, r') && InListingOrder(r')
      invariant forall i :: 0 <= i < |r'| ==>
                  PlatformRank(r'[i].1.platform) < c
                  || (PlatformRank(r'[i].1.platform) == c && r'[i].0 < k)
      invariant forall k' :: k' in ads && (PlatformRank(ads[k'].platform) < c
                                          || (PlatformRank(ads[k'].platform) == c && k' < k)) ==>
                  Listed(r', k', ads[k'])
    {
      if k in ads && ads[k].platform == PlatformCodes[c] {
        ghost var before := r';
        r' := r' + [(k, ads[k])];
        assert forall i :: 0 <= i < |before| ==> r'[i] == before[i];
        assert r'[|r'| - 1] == (k, ads[k]);
      }
      k := k + 1;
    }
  }

  /** The Advertisement list view: every stored advertisement exactly once, whatever the
      availability of its property, in ascending order of the stored platform text (the
      model's declared ordering). Among equal platforms the order is by key. */
  method AdvertisementList(s: Store) returns (r: seq<(Pk, Advertisement)>)
    requires forall a :: a in s.advertisements ==> IsPlatform(s.advertisements[a].platform)
    ensures forall i :: 0 <= i < |r| ==> r[i].0 in s.advertisements && s.advertisements[r[i].0] == r[i].1
    ensures forall k :: k in s.advertisements ==> exists i :: 0 <= i < |r| && r[i] == (k, s.advertisements[k])
    ensures forall i, j :: 0 <= i < j < |r| ==> r[i].0 != r[j].0
    ensures forall i, j :: 0 <= i < j < |r| ==> StrLe(r[i].1.platform, r[j].1.platform)
  {
    var ads := s.advertisements;
    var bound := KeyBound(ads);
    r := [];
    var c := 0;
    while c < |PlatformCodes|
      invariant c <= |PlatformCodes|
      invariant Sound(ads, r) && InListingOrder(r)
      invariant forall i :: 0 <= i < |r| ==> PlatformRank(r[i].1.platform) < c
      invariant forall k :: k in ads && PlatformRank(ads[k].platform) < c ==> Listed(r, k, ads[k])
    {
      r := AppendPlatform(ads, c, bound, r);
      c := c + 1;
    }
    forall k | k in ads
      ensures exists i :: 0 <= i < |r| && r[i] == (k, ads[k])
    {
      assert Listed(r, k, ads[k]);
    }
    forall i, j | 0 <= i < j < |r|
      ensures r[i].0 != r[j].0 && StrLe(r[i].1.platform, r[j].1.platform)
    {
      assert ListedBefore(r[i], r[j]);
      RankOrderIsTextOrder(r[i].1.platform, r[j].1.platform);
    }
  }

  /** The Reservation list view: every stored reservation exactly once, in key order. */
  method ReservationList(s: Store) returns (r: seq<(Pk, Reservation)>)
    ensures forall i :: 0 <= i < |r| ==> r[i].0 in s.reservations && s.reservations[r[i].0] == r[i].1
    ensures forall k :: k in s.reservations ==> exists i :: 0 <= i < |r| && r[i] == (k, s.reservations[k])
    ensures forall i, j :: 0 <= i < j < |r| ==> r[i].0 < r[j].0
  {
    var rs := s.reservations;
    var bound := KeyBound(rs);
    r := [];
    var k := 0;
    while k < bound
      invariant k <= bound
      invariant Sound(rs, r)
      invariant forall i :: 0 <= i < |r| ==> r[i].0 < k
      invariant forall i, j :: 0 <= i < j < |r| ==> r[i].0 < r[j].0
      invariant forall k' :: k' in rs && k' < k ==> Listed(r, k', rs[k'])
    {
      if k in rs {
        ghost var before := r;
        r := r + [(k, rs[k])];
        assert forall i :: 0 <= i < |before| ==> r[i] == before[i];
        assert r[|r| - 1] == (k, rs[k]);
      }
      k := k + 1;
    }
    forall k | k in rs
      ensures exists i :: 0 <= i < |r| && r[i] == (k, rs[k])
    {
      assert Listed(r, k, rs[k]);
    }
  }
}
