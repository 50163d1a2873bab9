# Reservation workflows of a restaurant booking backend

This project models the three multi-record workflows of the reservations API
of a restaurant booking backend (diners, tables, reservations, payments kept
in a document store):

- **table assignment** (`PUT /:id/tables`): the listed tables are added as a
  set to the reservation; its `tableCount` grows by the length of the list;
  its status is forced to `pending`. Then every listed table gets the
  reservation added as a set, and its `reservationCount` goes up by one.
- **payment capture** (`POST /:id/payment`): the reservation is read. A
  payment keyed by the reservation's id is created, holding a copy of the
  reservation's `guestsCount` and the request's fields. Then
  `totalAmount = guestsCount * chargePerHead` is stored, the payment is
  re-read, and `depositFee = totalAmount - totalAmount * depositPercentage`
  is stored. Last, the reservation is set to `confirmed` with `payment`
  pointing at the payment.
- **reservation removal** (`DELETE /:id`): one diner that lists the
  reservation has it pulled from `reservations` and its `reservationCount`
  decremented. Then the reservation is deleted.

The store is a class, `RecordStore.Store`, with one map per record kind.
Each workflow is a chain of methods, one per step of the source's promise
chain, and each step changes the maps the way its update document does. A
step that throws in the source (reading a field of a missing document, a
duplicate key on insert, a `NaN` the store will not cast to a number) ends
the workflow. Whatever the earlier steps wrote stays in place.

The files, in dependency order:

- `update_operators.dfy` (`UpdateOperators`): the `$addToSet` and `$pull`
  array operators on id arrays, with their set-semantics lemmas.
- `fees.dfy` (`Fees`): the two derived payment amounts, over exact reals.
- `records.dfy` (`Records`): the record datatypes and each single-record
  update document as a function, with the counter-consistency lemmas.
- `store.dfy` (`RecordStore`): the store class, the workflow steps and the
  workflows. It ends with five client methods (`AssignTwoTables`,
  `PayForFourGuests`, `RetryAfterMissingCharge`, `PayWithNullGuests`,
  `RemoveConfirmed`). They call the workflows on concrete records and
  assert what the contracts predict: two tables assigned; a payment of 4
  guests at 25 with 0.2 giving 100 and 80; a capture without a charge whose
  retry is refused; a `null` guestsCount giving a confirmed payment of 0;
  and a removal that leaves the tables still listing the reservation.

Several things one might expect of these workflows do not hold in the code.
The model follows the code and proves each gap:

- One would expect a table that is assigned again not to be counted twice.
  The code adds the length of the request list to `tableCount` (line 119),
  whatever was already there. `Records.ReassignBreaksCount` proves that a
  second assignment of the same non-empty list breaks an exact
  `tableCount == |tables|`.
- Nothing checks that the list of tables is non-empty, has no repeats, or
  names existing tables. An empty list still sets the status to `pending`
  (`Records.EmptyAssignmentStillPending`). Ids with no table record are
  stored on the reservation but match nothing in the bulk update (line 126).
  So every table id a reservation lists still names a table afterwards
  exactly when every listed id does (`RecordStore.Store.AssignTables`).
- For a missing reservation, table assignment still runs the table update.
  Only the final read fails.
- Removal updates the diner through the legacy `update` without the multi
  flag, so at most one diner changes. Which diner is chosen depends on the
  store's natural order, so the model leaves the choice open.
- Removal never touches tables or payments. Tables that listed the deleted
  reservation keep listing it, and its payment stays
  (`RecordStore.Store.RemoveReservation`).
- A missing `chargePerHead` is not rejected before the payment is created.
  The payment is saved first (line 171), and the `NaN` total is only refused
  afterward, when the store casts it (line 176). The same holds for a
  missing `depositPercentage` (line 192). The payment saved so far stays,
  the reservation is not confirmed and does not point at it. Every later
  capture on that reservation then fails on the duplicate payment id, so the
  reservation can no longer be confirmed this way
  (`RecordStore.Store.CapturePayment`, and the client
  `RetryAfterMissingCharge`).
- A field sent as an explicit `null` is not the same as a field left out.
  The store keeps the `null`, and JavaScript's `*` and `-` count it as 0.
  So a `null` `guestsCount` replaces the reservation's own through the
  spread (lines 167-168) and makes the bill 0; so does a `null`
  `chargePerHead`, and the reservation is still confirmed. A `null`
  `depositPercentage` makes the fee the whole bill
  (`Records.NullFieldsPriceAsZero`, and the client `PayWithNullGuests`).
- Status labels are not ordered. Payment does not require `pending`, and
  table assignment sets `pending` whatever the prior status (line 120),
  never clearing the `payment` set at line 204. So assigning tables to a
  confirmed reservation makes it pending again with its payment still set
  (`Records.AssignAfterConfirm`).

## Model

| member | source | states |
|---|---|---|
| UpdateOperators.AddOne | routes/api/reservations.js:128 | adding one id: the result holds exactly the old ids and the new one, grows by one exactly when the id was absent, keeps the old array as a prefix and stays duplicate-free |
| UpdateOperators.AddToSet | routes/api/reservations.js:118 | adding a list: the result holds exactly the old ids and the listed ones, keeps the old array as a prefix, grows by at most the list's length and stays duplicate-free |
| UpdateOperators.AddToSetPresent | routes/api/reservations.js:118 | adding ids that are all present already leaves the array unchanged |
| UpdateOperators.AddToSetIdempotent | routes/api/reservations.js:118 | adding the same list twice gives the same array as adding it once |
| UpdateOperators.AddToSetExact | routes/api/reservations.js:118-119 | on a duplicate-free array, the array grows by exactly the list's length if and only if the list is duplicate-free and shares no id with the array |
| UpdateOperators.Pull | routes/api/reservations.js:93 | the result holds every other id as often as the array did and the pulled one not at all, and stays duplicate-free |
| UpdateOperators.PullAbsent | routes/api/reservations.js:93 | pulling an absent id leaves the array unchanged |
| UpdateOperators.PullOnce | routes/api/reservations.js:93-94 | on a duplicate-free array holding the id, pulling shortens it by exactly one |
| Fees.TotalAmount | routes/api/reservations.js:179 | the total is never negative for a non-negative guest count and charge, and is zero for no guests |
| Fees.DepositFee | routes/api/reservations.js:189-190 | the fee equals totalAmount * (1 - depositPercentage) |
| Fees.DepositFeeBounds | routes/api/reservations.js:189-190 | for a non-negative total and a fraction in [0, 1], the fee lies between 0 and the total |
| Fees.FourGuestsExample | routes/api/reservations.js:175-196 | 4 guests at 25 per head give a total of 100, and with 0.2 a fee of 80 |
| Records.WithTables | routes/api/reservations.js:117-121 | after the reservation update: status is pending; tables is the union of the old tables and the list, with the old tables as a prefix and, when the old tables had no id twice, none twice in the result; tableCount rose by the list's length; diner, guestsCount, date and payment are kept |
| Records.WithReservation | routes/api/reservations.js:127-130 | after a table update: the table lists the reservation, holds exactly its old reservations plus that one, keeps them as a prefix, has no id twice when the old array had none, and its reservationCount rose by exactly one |
| Records.WithTablesKeepsCount | routes/api/reservations.js:118-119 | tableCount == \|tables\| survives an assignment if and only if the list is duplicate-free and names no table already assigned |
| Records.ReassignTables | routes/api/reservations.js:118-119 | assigning the same list twice leaves the same table set as once, but tableCount rises by twice the list's length |
| Records.ReassignBreaksCount | routes/api/reservations.js:119 | a second assignment of the same non-empty list breaks an exact tableCount == \|tables\| |
| Records.EmptyAssignmentStillPending | routes/api/reservations.js:115-121 | an empty list changes no table and no count but still forces status to pending |
| Records.AssignAfterConfirm | routes/api/reservations.js:118-120 | assigning tables to a confirmed reservation makes its status pending again while its payment stays set |
| Records.WithReservationKeepsCount | routes/api/reservations.js:128-129 | a table's reservationCount == \|reservations\| survives the update if and only if the reservation was not listed yet |
| Records.PulledFrom | routes/api/reservations.js:92-95 | after the diner update: the reservation is no longer listed, every other listed reservation is kept with its multiplicity, no id appears twice when none did before, and reservationCount dropped by exactly one |
| Records.PulledFromKeepsCount | routes/api/reservations.js:93-94 | a diner whose counter matched and who listed the reservation once still has a matching counter after the pull |
| Records.NewPayment | routes/api/reservations.js:164-169 | the new payment has the reservation's id; its guestsCount is the body's whenever the body has the key, a `null` included, and otherwise the reservation's, so it is never missing; it has the body's charge, percentage and date, and no derived amount |
| Records.WithTotalAmount | routes/api/reservations.js:176-180 | the total update succeeds exactly when neither guestsCount nor chargePerHead is missing, and then sets totalAmount to their product, with `null` as 0, and nothing else; a `null` operand makes the total 0 |
| Records.WithDepositFee | routes/api/reservations.js:188-196 | the fee update succeeds exactly when totalAmount and depositPercentage are not missing, and then sets depositFee from them, with `null` as 0, and nothing else; a `null` percentage makes the fee the whole total |
| Records.NewPaymentPriced | routes/api/reservations.js:164-196 | both derivations succeed on a new payment if and only if the body does not leave out the charge or the percentage, and then the payment satisfies both amount equations and keeps its id and guestsCount copy |
| Records.NullFieldsPriceAsZero | routes/api/reservations.js:164-196 | for a body that leaves out neither the charge nor the percentage: a `null` guestsCount or charge gives a total and a fee of 0, and a `null` percentage gives a fee equal to the total |
| Records.Confirm | routes/api/reservations.js:200-205 | after the reservation update: status is confirmed and payment is the given id, whatever the prior status; tables, tableCount, diner, guestsCount and date are kept |
| RecordStore.Store.FindReservation | routes/api/reservations.js:158-160 | the read finds a reservation exactly when one is stored under the id, and returns that record |
| RecordStore.Store.FindPayment | routes/api/reservations.js:183-185 | the read finds a payment exactly when one is stored under the id, and returns that record |
| RecordStore.Store.AddTableSet | routes/api/reservations.js:114-122 | an existing reservation gets the assignment update; a missing one matches nothing; no other map changes |
| RecordStore.Store.UpdateTableState | routes/api/reservations.js:124-131 | every existing listed table gets the table update once; unlisted tables are unchanged; listed ids without a record are ignored |
| RecordStore.Store.AssignTables | routes/api/reservations.js:113-152 | the whole assignment: reservation and table state as after both updates, even for a missing reservation, for which the result is empty; diners and payments unchanged; duplicate-freedom kept; on a duplicate-free store whose counters are all exact, they all stay exact when the assignment adds only new links; every reservation-to-table link stays mirrored by the table; for an existing reservation whose table ids all named tables before, every listed table id names a table afterwards if and only if every id in the request does; payment links are kept |
| RecordStore.Store.SavePayment | routes/api/reservations.js:163-173 | creates the new payment under the reservation's id unless that id is taken, in which case nothing changes |
| RecordStore.Store.CalculateTotalFee | routes/api/reservations.js:175-181 | unless guestsCount or the charge is missing, stores guestsCount * chargePerHead as the payment's totalAmount; otherwise fails and changes nothing |
| RecordStore.Store.CalculateDepositFee | routes/api/reservations.js:188-197 | unless the total or the percentage is missing, stores the deposit fee, a `null` percentage counting as 0; otherwise fails and changes nothing |
| RecordStore.Store.UpdateRef | routes/api/reservations.js:199-206 | an existing reservation is confirmed with payment set to its own id; nothing else changes |
| RecordStore.Store.CapturePayment | routes/api/reservations.js:157-230 | missing reservation or existing payment: a failure and no change; otherwise exactly one payment is created with the reservation's id and copied guestsCount; unless the body leaves out the charge or the percentage, it satisfies both amount equations (a `null` counting as 0) and the reservation is confirmed with payment set to its id; when either is left out the workflow stops with the partial payment kept and the reservation untouched, which breaks "payment set if and only if a payment is stored", while success and the other failures keep it; tables and diners never change |
| RecordStore.Store.UpdateDinerReservation | routes/api/reservations.js:89-96 | if some diner lists the reservation, exactly one such diner gets the pull-and-decrement update; otherwise no diner changes |
| RecordStore.Store.RemoveDinerReservation | routes/api/reservations.js:98-104 | the reservation is gone; deletedCount is 1 if it existed and 0 otherwise; nothing else changes |
| RecordStore.Store.RemoveReservation | routes/api/reservations.js:88-108 | the reservation is gone, at most one listing diner is updated, tables and payments are untouched, duplicate-freedom is kept, and on a duplicate-free store whose counters are all exact they all stay exact; tables that listed the reservation still list it, so a linked reservation with a stored table leaves a dangling back-reference; forward and payment links are kept |

## Left out

- The paginated listing `GET /` and the populated read `GET /:id` are not modelled. They are reads through the store's paginate and populate helpers, and those are not part of this model.
- The generic `PUT /:id` is not modelled. It merges an arbitrary request body into one record.
- The populated, projected re-reads that end each workflow return the plain stored record here. Population and field projection are store behaviour.
- Records.NewPayment: a reservation always has a guestsCount here. In the source a reservation stored without one makes line 167 copy `undefined`, the product at line 179 is then `NaN`, and the total update fails with a cast error; that path is not modelled.
- Request routing, the JSON responses, logging, and the store's casting and schema defaults are not modelled. The record schemas are not part of this model. Records keep only the fields the workflows read or write. The body of a payment request carries only `dateOfPayment`, `guestsCount`, `chargePerHead` and `depositPercentage`.
- RecordStore.Store.CapturePayment: the payment id is fixed to the reservation id. A request body that brings its own `_id` would override it through the spread, and that override is not modelled.
- RecordStore.Store.CapturePayment: a missing `chargePerHead` or `depositPercentage` is taken to fail when the store casts the resulting `NaN`. The save itself is taken to accept the absent field or a `null`, since the Payment schema's required fields are not visible. A body value of another JSON type (a string, say) and the store's casting of it are not modelled. The body's guestsCount is an integer here, though the store would also accept a fractional one.
- Fees.TotalAmount, Fees.DepositFee: amounts are exact reals, so IEEE-754 rounding is not modelled.
- Store write failures partway through a chain are not modelled, and neither are two requests interleaving on one reservation. Only the sequential semantics is modelled.
- RecordStore.Store.UpdateDinerReservation: which of several listing diners is updated is left unspecified, because it depends on the store's natural order.
- The predicates `Valid` and `CountsConsistent` are the model's own invariants. The source keeps no such check, so the workflows only promise to preserve them when they held before.
