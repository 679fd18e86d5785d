# Khanto rental domain layer in Dafny

This project models the domain layer of the Khanto property-rental API. The layer has three linked
record types. A **Property** is a rentable unit. An **Advertisement** lists a property on a
platform (AirBnb, Booking.com or Skyscanner). A **Reservation** books a stay against an
advertisement. The model is an in-memory store that holds three maps keyed by primary key, plus
one autoincrement counter per table. Every operation is a pure function from a store to a result.

- `results.dfy` (`Results`): `Option`, `Result`, and the rejections. These are not-found, an
  invalid field, an invalid choice, a duplicate code, and the date-range error.
- `fields.dfy` (`Fields`): the declared field types. A `PositiveIntegerField` admits 0 to
  2147483647, the range Django documents as safe on every backend. A `CharField` must be
  non-blank, no longer than `max_length`, and free of NUL characters. A `DecimalField`
  with two decimal places is a whole number of cents with at most `max_digits` digits. The file
  also holds the platform choice list and the text order the listing sorts by.
- `records.dfy` (`Records`): the records and the store. It defines two store invariants.
  `Integrity` covers what the database and `Reservation.save` guarantee: unique codes, foreign
  keys that resolve, check-in before check-out, and keys below the counters. `FieldsValid` says
  every record meets its field declarations.
- `models.dfy` (`Models`): the availability manager and the field checks. It also has
  `Reservation.clean` and `Reservation.save`, and the cascading deletes.
- `views.dfy` (`Views`): the API views. Property views work through the available queryset;
  Advertisement and Reservation views see every record. A write returns a `Reply`, which holds
  the store after the request and a body. A rejected write returns the store it was given.
- `invariants.dfy` (`Invariants`): every write keeps `Consistent`. The cascade equals deleting
  the children first and then the parent. The file also covers what the availability lens
  hides, and the create-then-retrieve round trips.
- `scenarios.dfy` (`Scenarios`): concrete request sequences starting from an empty store.

Dates are day ordinals. Money is integer cents.

## Model

| member | source | states |
|---|---|---|
| Models.Available | khanto_project/api/models.py:12-13 | The available query holds exactly the stored properties whose `is_available` is true, each with its stored fields, and no others |
| Models.CheckProperty | khanto_project/api/models.py:18-24 | A property write passes iff its code is 1 to 30 characters with no NUL, its two counts are in the `PositiveIntegerField` range, and its cleaning fee fits 6 digits. Its code must also differ from every other stored property's code, unavailable ones included. A well-formed duplicate code is refused as not unique |
| Models.CheckAdvertisement | khanto_project/api/models.py:34-40 | An advertisement write passes iff the platform is one of "Ab", "Bk", "Ss", the fee fits 8 digits, and the referenced property is stored (available or not). Any other platform is refused as an invalid choice |
| Models.CheckReservationFields | khanto_project/api/models.py:52-59 | A reservation's field checks pass iff the code is 1 to 100 characters with no NUL and unique among the others, the price fits 8 digits, the comment has no NUL, the guest count is in range, and the advertisement is stored. These checks never raise the date-range error |
| Models.Clean | khanto_project/api/models.py:64-66 | `clean` accepts a reservation iff check-in is strictly before check-out, and otherwise fails with the date-range error |
| Models.SaveReservation | khanto_project/api/models.py:68-70 | `save` succeeds iff the stay is ordered, the code is unique among the other reservations, the advertisement exists, and the guest count is not negative (the column's check constraint). An inverted stay is always refused with the date-range error, because `clean` runs first; this holds for inserts and updates alike. On success only the written reservation changes |
| Models.DeleteReservation | khanto_project/api/views.py:73-75 | Deleting a reservation removes that key only. Every other record is unchanged |
| Models.DeleteAdvertisement | khanto_project/api/models.py:59 | Deleting an advertisement removes it and exactly the reservations that reference it. Everything else is unchanged |
| Models.DeleteProperty | khanto_project/api/models.py:40 | Deleting a property removes it, exactly the advertisements that reference it, and exactly the reservations that reference one of those. Every other record keeps its value |
| Fields.RankOrderIsTextOrder | khanto_project/api/models.py:34 | For stored platform codes, the position in the choice list agrees with the text order: a code comes earlier in the list iff it sorts before the other |
| Views.PropertyList | khanto_project/api/views.py:11-13 | The property list holds exactly the available properties, with their stored fields |
| Views.PropertyRetrieve | khanto_project/api/views.py:22-33 | Retrieve succeeds iff the key is stored and available. It then shows the stored record, never the message. It answers not-found otherwise |
| Views.PropertyCreate | khanto_project/api/views.py:35-37 | Create succeeds iff the payload passes the property checks against all stored codes. The record goes under the next key, and nothing else changes. An omitted availability flag gives `is_available = true`. A refused create leaves the store unchanged |
| Views.PropertyUpdate | khanto_project/api/views.py:39-41 | Update of an absent or unavailable key answers not-found and changes nothing. Otherwise it succeeds iff the payload passes the checks, with the code unique among the other properties. Only that property changes |
| Views.PropertyDestroy | khanto_project/api/views.py:43-45 | Destroy succeeds iff the key is stored and available, and then performs the cascading property delete. Otherwise it answers not-found and changes nothing |
| Views.AdvertisementCreate | khanto_project/api/views.py:54-56 | Create succeeds iff the advertisement checks pass. The record goes under the next key. A platform outside the choices is refused and the store is unchanged |
| Views.AdvertisementRetrieve | khanto_project/api/views.py:58-60 | Retrieve returns the stored advertisement iff its key is stored, with no availability filter. It answers not-found otherwise |
| Views.AdvertisementUpdate | khanto_project/api/views.py:58-60 | Update of an absent key answers not-found. Otherwise it succeeds iff the checks pass. Only that advertisement changes, and a refused update leaves the store unchanged |
| Views.AdvertisementList | khanto_project/api/views.py:50-52 | The list holds every stored advertisement exactly once and nothing else, with no availability filter. It is sorted by the stored platform text, which is the declared ordering of `models.py:43` |
| Views.ReservationList | khanto_project/api/views.py:65-67 | The list holds every stored reservation exactly once and nothing else, with no availability filter |
| Views.ReservationCreate | khanto_project/api/views.py:69-71 | Create succeeds iff the field checks pass and check-in is before check-out. It fails with the date-range error iff the fields pass but the stay is inverted. A refused create leaves the store unchanged |
| Views.ReservationRetrieve | khanto_project/api/views.py:73-75 | Retrieve returns the stored reservation iff its key is stored. It answers not-found otherwise |
| Views.ReservationDestroy | khanto_project/api/views.py:73-75 | Destroy of a stored key removes exactly that reservation. Every other record is unchanged. An absent key answers not-found |
| Invariants.SaveReservationKeepsIntegrity | khanto_project/api/models.py:64-70 | After a successful save, every database invariant still holds. In particular, every stored reservation checks in before it checks out |
| Invariants.DeleteReservationKeepsConsistency | khanto_project/api/views.py:73-75 | Deleting a reservation keeps every store invariant |
| Invariants.DeleteAdvertisementKeepsConsistency | khanto_project/api/models.py:59 | The advertisement cascade keeps every invariant; no reservation is left without its advertisement |
| Invariants.DeletePropertyKeepsConsistency | khanto_project/api/models.py:40 | The property cascade keeps every invariant. Referential integrity holds afterwards |
| Invariants.DeleteEachRemovesDependents | khanto_project/api/models.py:59 | Deleting a set of advertisements one by one removes exactly those advertisements. It also removes exactly the reservations that reference one of them, whichever advertisement is picked at each step |
| Invariants.DeletePropertyIsTwoPhase | khanto_project/api/models.py:40 | The property cascade equals deleting each of its advertisements, with their reservations, and then the property |
| Invariants.PropertyCreateKeepsConsistency | khanto_project/api/models.py:18 | A property create keeps `property_code` values pairwise distinct, along with every other invariant |
| Invariants.PropertyUpdateKeepsConsistency | khanto_project/api/views.py:39-41 | A property update keeps codes pairwise distinct, along with every other invariant |
| Invariants.PropertyDestroyKeepsConsistency | khanto_project/api/views.py:43-45 | The destroy view keeps every invariant, referential integrity included |
| Invariants.AdvertisementCreateKeepsConsistency | khanto_project/api/models.py:37 | Every stored advertisement's platform stays one of the choices, along with every other invariant |
| Invariants.AdvertisementUpdateKeepsConsistency | khanto_project/api/views.py:58-60 | An advertisement update keeps every invariant, the platform choice included |
| Invariants.ReservationCreateKeepsConsistency | khanto_project/api/views.py:69-71 | A reservation create keeps reservation codes pairwise distinct. It never stores an inverted stay |
| Invariants.ReservationDestroyKeepsConsistency | khanto_project/api/views.py:73-75 | The reservation destroy view keeps every invariant |
| Invariants.RetrieveNeverShowsMessage | khanto_project/api/views.py:29-33 | The "indisponíveis" message branch of retrieve is unreachable in every store |
| Invariants.UnavailablePropertyIsFrozen | khanto_project/api/views.py:22-45 | An unavailable property is not found by retrieve, update or destroy, and those requests leave the store unchanged. Create, and update or destroy of any other key, leave that property as it was |
| Invariants.UpdateAvailabilityShowsInList | khanto_project/api/views.py:12 | After a successful update, the property is in the next list iff the payload did not set `is_available` to false |
| Invariants.DuplicatePropertyCodeRejected | khanto_project/api/models.py:18 | A create whose code is already stored, on any property, is refused as not unique and leaves the store unchanged |
| Invariants.DuplicateReservationCodeRejected | khanto_project/api/models.py:52 | A create whose reservation code is already stored is refused as not unique and leaves the store unchanged |
| Invariants.CreatedPropertyIsRetrieved | khanto_project/api/models.py:24 | A created property that was not marked unavailable is retrieved under its new key with the fields it was created with. This includes the defaulted availability flag |
| Invariants.CreatedAdvertisementIsRetrieved | khanto_project/api/views.py:54-60 | A created advertisement is retrieved under its new key unchanged |
| Invariants.CreatedReservationIsRetrieved | khanto_project/api/views.py:69-75 | A created reservation is retrieved under its new key with its fields. An omitted comment is stored empty |
| Invariants.DestroyedReservationIsGone | khanto_project/api/views.py:73-75 | After a destroy, that key answers not-found and every other key retrieves as before |
| Invariants.UpdatedPropertyIsRetrieved | khanto_project/api/views.py:39-41 | After a successful update, retrieve shows the new fields. If the update set `is_available` to false, retrieve answers not-found instead |
| Invariants.DestroyedPropertyIsGone | khanto_project/api/views.py:43-45 | After a property is destroyed, it answers not-found. So does every advertisement that referenced it, and every reservation of such an advertisement |
| Invariants.UpdatedAdvertisementIsRetrieved | khanto_project/api/views.py:58-60 | After a successful update, the advertisement retrieves with the new fields |
| Invariants.HandleKeepsConsistency | khanto_project/api/views.py:35-75 | Every write view keeps a consistent store consistent |
| Invariants.RequestsKeepConsistency | khanto_project/api/models.py:64-70 | Any sequence of write requests keeps a consistent store consistent. In particular, every stored stay keeps check-in before check-out |
| Invariants.ReachableStoresAreConsistent | khanto_project/api/models.py:18-70 | Every store reachable from an empty database through the views satisfies all the uniqueness, choice, reference and date invariants |
| Scenarios.CreateRetrieveAndDuplicate | khanto_project/api/models.py:18-24 | From an empty store, "A100" with 4 guests is created under key 1 and retrieved available with 4 guests. A second "A100" is refused as not unique |
| Scenarios.PlatformChoice | khanto_project/api/models.py:34-37 | Platform "Other" is refused as an invalid choice, and "Ab" is accepted |
| Scenarios.NulCodeRefused | khanto_project/api/models.py:18 | A property code holding a NUL character is refused as an invalid field |
| Scenarios.NegativeGuestsRefusedBySave | khanto_project/api/models.py:57 | A direct save of a reservation with guest count -1 passes `clean` but is refused by the non-negative column check |
| Scenarios.StayDates | khanto_project/api/models.py:64-70 | A stay from 2024-05-10 to 2024-05-05 is refused with the date-range error and leaves the store unchanged. The reverse stay is accepted |

The list views are methods that build their result in a loop. `Views.AdvertisementList` requires
that every stored platform is one of the choices. Every store reachable through the views meets
that requirement, as `ReachableStoresAreConsistent` shows. `Views.KeyBound`
and `Views.AppendPlatform` are helpers of the list views.

Three behaviours of the code are worth stating outright:

- The retrieve view looks the key up in the available queryset (`views.py:23,27`), so an
  unavailable property answers not-found, and the message branch at `views.py:32-33` is dead,
  as `RetrieveNeverShowsMessage` proves.
- `PositiveIntegerField` admits 0, so the model admits 0 for the guest and bathroom counts.
- Uniqueness validation and the advertisement's `property` reference go through the default
  manager, `objects`, which is the first one declared. So a code held by an unavailable property
  still blocks a create, and an advertisement may reference an unavailable property.

## Left out

- HTTP routing, status codes, the admin console, `HomePageView` and its template: these are
  wiring and display with no domain logic.
- JSON serialization: each serializer is a field-for-field `__all__` mapping done by the
  framework. A payload is modelled as the record it describes.
- The `created` and `modified` timestamps: the framework manages them and no rule reads them.
- Partial updates (`PATCH`): modelled as a full update whose payload already holds the stored
  values of the omitted fields.
- Missing required fields, and the serializer's trimming of surrounding whitespace in text:
  payloads are complete and taken as given.
- Models.CheckProperty: reports only the first failing field in declaration order, while the
  serializer reports every failing field at once. The same payloads pass, apart from the
  whitespace trimming listed above.
- Models.CheckAdvertisement: reports only the first failing field, like `CheckProperty`.
- Models.CheckReservationFields: reports only the first failing field, like `CheckProperty`.
- Models.SaveReservation: a storage-level duplicate, dangling reference or negative guest count
  surfaces as the same not-unique or invalid-field error the serializer gives, rather than as a
  database integrity error. Column lengths, decimal digit limits and integer ranges are not
  rechecked at this level, since they depend on the backend; the views never reach `save` with
  such values, because the field checks run first.
- Fields.IsPositiveInteger: the upper bound 2147483647 is the range Django documents as safe on
  every backend. The serializer takes its bound from the backend, and MySQL allows up to
  4294967295 and Oracle up to 99999999999. The database settings are not part of this model.
- Views.AdvertisementList: ties between equal platforms come out in key order. The database
  promises no order for them, so the contract states only the platform order.
- Views.ReservationList: the model is declared without an ordering, so the database returns
  rows in no promised order. The model lists them in key order.
- The display labels of the platform choices ("AirBnb", "Booking.com", "Skyscanner"): they are
  never stored.
- Real calendar dates and decimals: dates are day ordinals and amounts are integer cents. The
  digit limits come from `max_digits`.
- Database collation: the platform text order is code-point order. For the three stored codes,
  every collation agrees.
- Transactions and concurrency: each request is one atomic step from a store to a store.
