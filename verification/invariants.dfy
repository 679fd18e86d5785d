/** What every write keeps true of the store, and what the availability lens hides. */
module Invariants {
  import opened Results
  import opened Fields
  import opened Records
  import Models
  import opened Views

  // ---- model-level writes ----

  /** A successful `Reservation.save`, insert or update, keeps every database invariant; in
      particular every stored stay still checks in before it checks out. */
  lemma SaveReservationKeepsIntegrity(s: Store, pk: Pk, r: Reservation)
    requires Integrity(s)
    requires Models.SaveReservation(s, pk, r).Ok?
    ensures Integrity(Models.SaveReservation(s, pk, r).value)
  {
    var t := Models.SaveReservation(s, pk, r).value;
    forall k | k in t.reservations
      ensures ReservationCodeFree(t, Some(k), t.reservations[k].code)
    {
      if k != pk {
        assert t.reservations[k] == s.reservations[k];
        assert ReservationCodeFree(s, Some(k), s.reservations[k].code);
      }
    }
  }

  lemma DeleteReservationKeepsConsistency(s: Store, pk: Pk)
    requires Consistent(s)
    ensures Consistent(Models.DeleteReservation(s, pk))
  {
  }

  lemma DeleteAdvertisementKeepsConsistency(s: Store, pk: Pk)
    requires Consistent(s)
    ensures Consistent(Models.DeleteAdvertisement(s, pk))
  {
    var t := Models.DeleteAdvertisement(s, pk);
    forall k | k in t.reservations
      ensures ReservationCodeFree(t, Some(k), t.reservations[k].code)
    {
      assert ReservationCodeFree(s, Some(k), s.reservations[k].code);
    }
    forall k | k in t.reservations
      ensures t.reservations[k].advertisement in t.advertisements
    {
      assert s.reservations[k].advertisement != pk;
    }
  }

  /** Deleting a property leaves no advertisement or reservation without its parent, and
      keeps every other invariant. */
  lemma DeletePropertyKeepsConsistency(s: Store, pk: Pk)
    requires Consistent(s)
    ensures Consistent(Models.DeleteProperty(s, pk))
  {
    var t := Models.DeleteProperty(s, pk);
    forall k | k in t.properties
      ensures PropertyCodeFree(t, Some(k), t.properties[k].code)
    {
      assert PropertyCodeFree(s, Some(k), s.properties[k].code);
    }
    forall k | k in t.reservations
      ensures ReservationCodeFree(t, Some(k), t.reservations[k].code)
    {
      assert ReservationCodeFree(s, Some(k), s.reservations[k].code);
    }
    forall a | a in t.advertisements
      ensures t.advertisements[a].property in t.properties
    {
      assert s.advertisements[a].property != pk;
    }
    forall k | k in t.reservations
      ensures t.reservations[k].advertisement in t.advertisements
    {
      var a := s.reservations[k].advertisement;
      assert a in s.advertisements && s.advertisements[a].property != pk;
    }
  }

  // ---- the cascade, one advertisement at a time ----

  ghost function Pick(d: set<Pk>): (a: Pk)
    requires d != {}
    ensures a in d
  {
    var a :| a in d; a
  }

  /** Deletes the advertisements `d` one after the other, each with its own cascade. */
  ghost function DeleteEach(s: Store, d: set<Pk>): Store
    decreases d
  {
    if d == {} then s
    else
      var a := Pick(d);
      DeleteEach(Models.DeleteAdvertisement(s, a), d - {a})
  }

  /** Deleting a set of advertisements one by one removes exactly those advertisements and
      exactly the reservations that reference one of them, whichever advertisement is
      picked at each step. */
  lemma {:induction false} DeleteEachRemovesDependents(s: Store, d: set<Pk>)
    ensures DeleteEach(s, d) ==
              s.(advertisements := s.advertisements - d,
                 reservations := map k | k in s.reservations && s.reservations[k].advertisement !in d
                                    :: s.reservations[k])
    decreases d
  {
    if d == {} {
      assert s.advertisements - d == s.advertisements;
      assert (map k | k in s.reservations && s.reservations[k].advertisement !in d
                 :: s.reservations[k]) == s.reservations;
    } else {
      var a := Pick(d);
      var s1 := Models.DeleteAdvertisement(s, a);
      DeleteEachRemovesDependents(s1, d - {a});
      assert s1.advertisements - (d - {a}) == s.advertisements - d;
      assert (map k | k in s1.reservations && s1.reservations[k].advertisement !in d - {a}
                 :: s1.reservations[k])
          == (map k | k in s.reservations && s.reservations[k].advertisement !in d
                 :: s.reservations[k]);
    }
  }

  /** The cascade of a property delete is the two-phase delete: first each advertisement of
      the property with its reservations, then the property itself. */
  lemma DeletePropertyIsTwoPhase(s: Store, pk: Pk)
    ensures Models.DeleteProperty(s, pk)
         == DeleteEach(s, Models.AdvertisementsOf(s, pk)).(properties := s.properties - {pk})
  {
    DeleteEachRemovesDependents(s, Models.AdvertisementsOf(s, pk));
  }

  // ---- views ----

  lemma PropertyCreateKeepsConsistency(s: Store, input: PropertyInput)
    requires Consistent(s)
    ensures Consistent(PropertyCreate(s, input).store)
  {
    var r := PropertyCreate(s, input);
    if r.body.Ok? {
      var t := r.store;
      forall k | k in t.properties
        ensures PropertyCodeFree(t, Some(k), t.properties[k].code)
      {
        if k != s.nextProperty {
          assert PropertyCodeFree(s, Some(k), s.properties[k].code);
        }
      }
    }
  }

  lemma PropertyUpdateKeepsConsistency(s: Store, pk: Pk, input: PropertyInput)
    requires Consistent(s)
    ensures Consistent(PropertyUpdate(s, pk, input).store)
  {
    var r := PropertyUpdate(s, pk, input);
    if r.body.Ok? {
      var t := r.store;
      forall k | k in t.properties
        ensures PropertyCodeFree(t, Some(k), t.properties[k].code)
      {
        if k != pk {
          assert PropertyCodeFree(s, Some(k), s.properties[k].code);
        }
      }
    }
  }

  lemma PropertyDestroyKeepsConsistency(s: Store, pk: Pk)
    requires Consistent(s)
    ensures Consistent(PropertyDestroy(s, pk).store)
  {
    if PropertyDestroy(s, pk).body.Ok? {
      DeletePropertyKeepsConsistency(s, pk);
    }
  }

  lemma AdvertisementCreateKeepsConsistency(s: Store, a: Advertisement)
    requires Consistent(s)
    ensures Consistent(AdvertisementCreate(s, a).store)
  {
  }

  lemma AdvertisementUpdateKeepsConsistency(s: Store, pk: Pk, a: Advertisement)
    requires Consistent(s)
    ensures Consistent(AdvertisementUpdate(s, pk, a).store)
  {
  }

  /** Creating a reservation keeps every invariant: the store never holds an inverted stay. */
  lemma ReservationCreateKeepsConsistency(s: Store, input: ReservationInput)
    requires Consistent(s)
    ensures Consistent(ReservationCreate(s, input).store)
  {
    var r := ReservationCreate(s, input);
    if r.body.Ok? {
      SaveReservationKeepsIntegrity(s, s.nextReservation, ReservationOf(input));
    }
  }

  lemma ReservationDestroyKeepsConsistency(s: Store, pk: Pk)
    requires Consistent(s)
    ensures Consistent(ReservationDestroy(s, pk).store)
  {
  }

  // ---- the availability lens ----

  /** The message branch of the retrieve view is dead: whatever the store, a successful
      retrieve shows the record, never the "details unavailable" message. */
  lemma RetrieveNeverShowsMessage(s: Store, pk: Pk)
    ensures PropertyRetrieve(s, pk).Ok? ==> !PropertyRetrieve(s, pk).value.Message?
  {
  }

  /** Once a property is unavailable no Property view can change, delete or restore it: it is
      not found by retrieve, update or destroy, and the other Property writes leave it alone. */
  lemma UnavailablePropertyIsFrozen(s: Store, pk: Pk, other: Pk, input: PropertyInput)
    requires Integrity(s)
    requires pk in s.properties && !s.properties[pk].isAvailable
    ensures PropertyRetrieve(s, pk) == Err(NotFound)
    ensures PropertyUpdate(s, pk, input) == Reply(s, Err(NotFound))
    ensures PropertyDestroy(s, pk) == Reply(s, Err(NotFound))
    ensures var t := PropertyCreate(s, input).store;
              pk in t.properties && t.properties[pk] == s.properties[pk]
    ensures var t := PropertyUpdate(s, other, input).store;
              pk in t.properties && t.properties[pk] == s.properties[pk]
    ensures var t := PropertyDestroy(s, other).store;
              pk in t.properties && t.properties[pk] == s.properties[pk]
  {
  }

  /** Making a property unavailable hides it from the very next list; keeping it available
      keeps it listed. */
  lemma UpdateAvailabilityShowsInList(s: Store, pk: Pk, input: PropertyInput)
    requires PropertyUpdate(s, pk, input).body.Ok?
    ensures (pk in PropertyList(PropertyUpdate(s, pk, input).store))
              == (input.isAvailable != Some(false))
  {
  }

  /** A rejected property code: a create whose code is already stored, on any property
      available or not, is refused and leaves the store as it was. */
  lemma DuplicatePropertyCodeRejected(s: Store, input: PropertyInput, k: Pk)
    requires k in s.properties && s.properties[k].code == input.code
    ensures PropertyCreate(s, input).body.Err?
    ensures PropertyCreate(s, input).store == s
    ensures IsCharField(input.code, 30) ==>
              PropertyCreate(s, input).body == Err(NotUnique("property_code"))
  {
  }

  /** The same for reservation codes. */
  lemma DuplicateReservationCodeRejected(s: Store, input: ReservationInput, k: Pk)
    requires k in s.reservations && s.reservations[k].code == input.code
    ensures ReservationCreate(s, input).store == s
    ensures ReservationCreate(s, input).body.Err?
    ensures IsCharField(input.code, 100) ==>
              ReservationCreate(s, input).body == Err(NotUnique("reservation_code"))
  {
  }

  // ---- round trips through the views ----

  /** A created property that is available is retrieved with the fields it was created with. */
  lemma CreatedPropertyIsRetrieved(s: Store, input: PropertyInput)
    requires PropertyCreate(s, input).body.Ok?
    requires input.isAvailable != Some(false)
    ensures PropertyRetrieve(PropertyCreate(s, input).store, PropertyCreate(s, input).body.value)
         == Ok(Record(PropertyOf(input, true)))
  {
  }

  lemma CreatedAdvertisementIsRetrieved(s: Store, a: Advertisement)
    requires AdvertisementCreate(s, a).body.Ok?
    ensures AdvertisementRetrieve(AdvertisementCreate(s, a).store, AdvertisementCreate(s, a).body.value)
         == Ok(a)
  {
  }

  lemma CreatedReservationIsRetrieved(s: Store, input: ReservationInput)
    requires ReservationCreate(s, input).body.Ok?
    ensures ReservationRetrieve(ReservationCreate(s, input).store, ReservationCreate(s, input).body.value)
         == Ok(ReservationOf(input))
  {
  }

  /** A destroyed reservation is gone and every other reservation still retrieves as before. */
  lemma DestroyedReservationIsGone(s: Store, pk: Pk, other: Pk)
    requires ReservationDestroy(s, pk).body.Ok?
    ensures ReservationRetrieve(ReservationDestroy(s, pk).store, pk) == Err(NotFound)
    ensures other != pk ==>
              ReservationRetrieve(ReservationDestroy(s, pk).store, other) == ReservationRetrieve(s, other)
  {
  }

  /** An updated property retrieves with its new fields, unless the update made it
      unavailable, in which case it is no longer found. */
  lemma UpdatedPropertyIsRetrieved(s: Store, pk: Pk, input: PropertyInput)
    requires PropertyUpdate(s, pk, input).body.Ok?
    ensures PropertyRetrieve(PropertyUpdate(s, pk, input).store, pk)
         == if input.isAvailable == Some(false) then Err(NotFound)
            else Ok(Record(PropertyOf(input, true)))
  {
  }

  /** After a property is destroyed it is not found, and neither is any advertisement that
      referenced it nor any reservation of such an advertisement. */
  lemma DestroyedPropertyIsGone(s: Store, pk: Pk, a: Pk, k: Pk)
    requires PropertyDestroy(s, pk).body.Ok?
    ensures PropertyRetrieve(PropertyDestroy(s, pk).store, pk) == Err(NotFound)
    ensures a in s.advertisements && s.advertisements[a].property == pk ==>
              AdvertisementRetrieve(PropertyDestroy(s, pk).store, a) == Err(NotFound)
    ensures k in s.reservations && s.reservations[k].advertisement == a
            && a in s.advertisements && s.advertisements[a].property == pk ==>
              ReservationRetrieve(PropertyDestroy(s, pk).store, k) == Err(NotFound)
  {
  }

  lemma UpdatedAdvertisementIsRetrieved(s: Store, pk: Pk, a: Advertisement)
    requires AdvertisementUpdate(s, pk, a).body.Ok?
    ensures AdvertisementRetrieve(AdvertisementUpdate(s, pk, a).store, pk) == Ok(a)
  {
  }

  // ---- any sequence of requests ----

  /** A write request to one of the API views. */
  datatype Request =
    | CreateProperty(property: PropertyInput)
    | UpdateProperty(pk: Pk, property: PropertyInput)
    | DestroyProperty(pk: Pk)
    | CreateAdvertisement(advertisement: Advertisement)
    | UpdateAdvertisement(pk: Pk, advertisement: Advertisement)
    | CreateReservation(reservation: ReservationInput)
    | DestroyReservation(pk: Pk)

  /** The store after the view answers `req`. */
  function Handle(s: Store, req: Request): Store {
    match req
    case CreateProperty(p) => PropertyCreate(s, p).store
    case UpdateProperty(pk, p) => PropertyUpdate(s, pk, p).store
    case DestroyProperty(pk) => PropertyDestroy(s, pk).store
    case CreateAdvertisement(a) => AdvertisementCreate(s, a).store
    case UpdateAdvertisement(pk, a) => AdvertisementUpdate(s, pk, a).store
    case CreateReservation(r) => ReservationCreate(s, r).store
    case DestroyReservation(pk) => ReservationDestroy(s, pk).store
  }

  /** The store after the views answer `reqs` in order. */
  function Run(s: Store, reqs: seq<Request>): Store
    decreases |reqs|
  {
    if |reqs| == 0 then s else Run(Handle(s, reqs[0]), reqs[1..])
  }

  lemma HandleKeepsConsistency(s: Store, req: Request)
    requires Consistent(s)
    ensures Consistent(Handle(s, req))
  {
    match req
    case CreateProperty(p) => PropertyCreateKeepsConsistency(s, p);
    case UpdateProperty(pk, p) => PropertyUpdateKeepsConsistency(s, pk, p);
    case DestroyProperty(pk) => PropertyDestroyKeepsConsistency(s, pk);
    case CreateAdvertisement(a) => AdvertisementCreateKeepsConsistency(s, a);
    case UpdateAdvertisement(pk, a) => AdvertisementUpdateKeepsConsistency(s, pk, a);
    case CreateReservation(r) => ReservationCreateKeepsConsistency(s, r);
    case DestroyReservation(pk) => ReservationDestroyKeepsConsistency(s, pk);
  }

  /** Any sequence of requests keeps a consistent store consistent: property and reservation
      codes stay pairwise distinct, every platform stays a choice, every foreign key keeps
      resolving and every stored stay checks in before it checks out. */
  lemma {:induction false} RequestsKeepConsistency(reqs: seq<Request>, s: Store)
    requires Consistent(s)
    ensures Consistent(Run(s, reqs))
    decreases |reqs|
  {
    if |reqs| > 0 {
      HandleKeepsConsistency(s, reqs[0]);
      RequestsKeepConsistency(reqs[1..], Handle(s, reqs[0]));
    }
  }

  /** Every store the API can reach from an empty database is consistent. */
  lemma ReachableStoresAreConsistent(reqs: seq<Request>)
    ensures Consistent(Run(EmptyStore, reqs))
  {
    assert Consistent(EmptyStore);
    RequestsKeepConsistency(reqs, EmptyStore);
  }
}
