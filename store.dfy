/** The record store as the reservation routes see it — one map per record
    kind, keyed by id — and the three multi-record workflows, each a method
    per step of the source's promise chain followed by the chain itself. A
    step that throws in the source ends the workflow: what earlier steps wrote
    stays, nothing later runs. */
module RecordStore {
  import opened UpdateOperators
  import opened Fees
  import opened Records

  /** Why a payment capture stopped: the reservation read came back empty,
      the payment id was already taken, or an update carried a value the
      store could not cast to a number. */
  datatype Failure = NotFound | DuplicateKey | CastError(path: string)

  datatype Result<T> = Ok(value: T) | Err(failure: Failure)

  class Store {
    var reservations: map<Id, Reservation>
    var tables: map<Id, Table>
    var diners: map<Id, Diner>
    var payments: map<Id, Payment>

    constructor (reservations: map<Id, Reservation>, tables: map<Id, Table>,
                 diners: map<Id, Diner>, payments: map<Id, Payment>)
      ensures this.reservations == reservations && this.tables == tables
      ensures this.diners == diners && this.payments == payments
    {
      this.reservations := reservations;
      this.tables := tables;
      this.diners := diners;
      this.payments := payments;
    }

    /** Every reference array is used as a set. */
    ghost predicate Valid()
      reads this
    {
      (forall r :: r in reservations ==> NoDup(reservations[r].tables)) &&
      (forall t :: t in tables ==> NoDup(tables[t].reservations)) &&
      (forall d :: d in diners ==> NoDup(diners[d].reservations))
    }

    /** Every denormalised counter equals the size of the array it counts. */
    ghost predicate CountsConsistent()
      reads this
    {
      (forall r :: r in reservations ==> TableCountTracks(reservations[r])) &&
      (forall t :: t in tables ==> ReservationCountTracks(tables[t])) &&
      (forall d :: d in diners ==> DinerCountTracks(diners[d]))
    }

    /** Forward links are mirrored: a reservation that lists an existing
        table is listed back by that table. */
    ghost predicate Linked()
      reads this
    {
      forall r, t :: r in reservations && t in reservations[r].tables && t in tables ==>
        r in tables[t].reservations
    }

    /** Every table id a reservation lists names a stored table. */
    ghost predicate TablesResolved()
      reads this
    {
      forall r, t :: r in reservations && t in reservations[r].tables ==> t in tables
    }

    /** Every reservation id a table lists names a stored reservation. */
    ghost predicate BookingsResolved()
      reads this
    {
      forall t, r :: t in tables && r in tables[t].reservations ==> r in reservations
    }

    /** A reservation points at a payment exactly when a payment is stored
        under its id. */
    ghost predicate PaymentsLinked()
      reads this
    {
      forall r :: r in reservations ==> (reservations[r].payment.Some? <==> r in payments)
    }

    /** An assignment that adds only new links: the reservation exists, the
        list has no repeats and names none of its tables, and no listed table
        lists the reservation yet. */
    ghost predicate FreshAssignment(rid: Id, ids: seq<Id>)
      reads this
    {
      rid in reservations && NoDup(ids) && Disjoint(reservations[rid].tables, ids) &&
      forall t :: t in tables && t in ids ==> rid !in tables[t].reservations
    }

    /** `findOne` of a reservation by id. */
    method FindReservation(rid: Id) returns (doc: Option<Reservation>)
      ensures doc.Some? <==> rid in reservations
      ensures doc.Some? ==> doc.value == reservations[rid]
    {
      doc := if rid in reservations then Some(reservations[rid]) else None;
    }

    /** `findOne` of a payment by id. */
    method FindPayment(pid: Id) returns (doc: Option<Payment>)
      ensures doc.Some? <==> pid in payments
      ensures doc.Some? ==> doc.value == payments[pid]
    {
      doc := if pid in payments then Some(payments[pid]) else None;
    }

    // ----- PUT /:id/tables -----

    /** Step 1: one update of the reservation, if it exists. */
    method AddTableSet(rid: Id, ids: seq<Id>)
      modifies this
      ensures reservations == if rid in old(reservations)
        then old(reservations)[rid := WithTables(old(reservations)[rid], ids)]
        else old(reservations)
      ensures tables == old(tables) && diners == old(diners) && payments == old(payments)
    {
      if rid in reservations {
        reservations := reservations[rid := WithTables(reservations[rid], ids)];
      }
    }

    /** Step 2: one update of every table whose id is listed; ids without a
        table match nothing, and a table listed twice is updated once. */
    method UpdateTableState(rid: Id, ids: seq<Id>)
      modifies this
      ensures tables.Keys == old(tables).Keys
      ensures forall t :: t in tables ==>
        tables[t] == if t in ids then WithReservation(old(tables)[t], rid) else old(tables)[t]
      ensures reservations == old(reservations) && diners == old(diners) && payments == old(payments)
    {
      tables := map t | t in tables :: if t in ids then WithReservation(tables[t], rid) else tables[t];
    }

    /** The whole table assignment. Both updates run even when the
        reservation does not exist; the closing read then finds nothing. */
    method AssignTables(rid: Id, ids: seq<Id>) returns (doc: Option<Reservation>)
      modifies this
      ensures reservations == if rid in old(reservations)
        then old(reservations)[rid := WithTables(old(reservations)[rid], ids)]
        else old(reservations)
      ensures doc.Some? <==> rid in old(reservations)
      ensures doc.Some? ==> doc.value == reservations[rid]
      ensures tables.Keys == old(tables).Keys
      ensures forall t :: t in tables ==>
        tables[t] == if t in ids then WithReservation(old(tables)[t], rid) else old(tables)[t]
      ensures diners == old(diners) && payments == old(payments)
      ensures old(Valid()) ==> Valid()
      ensures old(Valid()) && old(CountsConsistent()) && old(FreshAssignment(rid, ids)) ==>
        CountsConsistent()
      ensures old(Linked()) ==> Linked()
      // ids with no table are stored all the same, so they dangle
      ensures rid in old(reservations) && old(TablesResolved()) ==>
        (TablesResolved() <==> forall t :: t in ids ==> t in tables)
      ensures old(PaymentsLinked()) ==> PaymentsLinked()
    {
      ghost var wasValid, wasConsistent := Valid(), CountsConsistent();
      ghost var wasFresh := FreshAssignment(rid, ids);
      ghost var before := tables;
      AddTableSet(rid, ids);
      UpdateTableState(rid, ids);
      doc := FindReservation(rid);
      if wasValid && wasConsistent && wasFresh {
        WithTablesKeepsCount(old(reservations)[rid], ids);
        forall t | t in tables ensures ReservationCountTracks(tables[t]) {
          if t in ids { WithReservationKeepsCount(before[t], rid); }
        }
      }
    }

    // ----- POST /:id/payment -----

    /** Step 2: create the payment document; a payment with the same id
        already stored makes the insert fail. */
    method SavePayment(rid: Id, doc: Reservation, body: PaymentBody) returns (saved: Result<Payment>)
      modifies this
      ensures rid in old(payments) ==> saved == Err(DuplicateKey) && payments == old(payments)
      ensures rid !in old(payments) ==>
        saved == Ok(NewPayment(rid, doc, body)) && payments == old(payments)[rid := saved.value]
      ensures reservations == old(reservations) && tables == old(tables) && diners == old(diners)
    {
      if rid in payments {
        saved := Err(DuplicateKey);
      } else {
        var p := NewPayment(rid, doc, body);
        payments := payments[rid := p];
        saved := Ok(p);
      }
    }

    /** Step 3: store guestsCount times chargePerHead, both taken from the
        saved document, on the payment with that document's id. */
    method CalculateTotalFee(doc: Payment) returns (ok: bool)
      modifies this
      ensures ok <==> WithTotalAmount(doc).Some?
      ensures payments == if ok && doc.id in old(payments)
        then old(payments)[doc.id := old(payments)[doc.id].(totalAmount := WithTotalAmount(doc).value.totalAmount)]
        else old(payments)
      ensures reservations == old(reservations) && tables == old(tables) && diners == old(diners)
    {
      ok := WithTotalAmount(doc).Some?;
      if ok && doc.id in payments {
        var stored := payments[doc.id];
        var total := TotalAmount(Operand(doc.guestsCount, 0).value, Operand(doc.chargePerHead, 0.0).value);
        payments := payments[doc.id := stored.(totalAmount := Some(total))];
      }
    }

    /** Step 5: store totalAmount less its depositPercentage share, both
        taken from the re-read document, on the payment keyed by rid. */
    method CalculateDepositFee(rid: Id, doc: Payment) returns (ok: bool)
      modifies this
      ensures ok <==> WithDepositFee(doc).Some?
      ensures payments == if ok && rid in old(payments)
        then old(payments)[rid := old(payments)[rid].(depositFee := WithDepositFee(doc).value.depositFee)]
        else old(payments)
      ensures reservations == old(reservations) && tables == old(tables) && diners == old(diners)
    {
      ok := WithDepositFee(doc).Some?;
      if ok && rid in payments {
        var fee := DepositFee(doc.totalAmount.value, Operand(doc.depositPercentage, 0.0).value);
        payments := payments[rid := payments[rid].(depositFee := Some(fee))];
      }
    }

    /** Step 6: mark the reservation confirmed and point it at its payment. */
    method UpdateRef(rid: Id)
      modifies this
      ensures reservations == if rid in old(reservations)
        then old(reservations)[rid := Confirm(old(reservations)[rid], rid)]
        else old(reservations)
      ensures tables == old(tables) && diners == old(diners) && payments == old(payments)
    {
      if rid in reservations {
        reservations := reservations[rid := Confirm(reservations[rid], rid)];
      }
    }

    /** The whole payment capture, keyed by the reservation id. */
    method CapturePayment(rid: Id, body: PaymentBody) returns (result: Result<Reservation>)
      modifies this
      ensures tables == old(tables) && diners == old(diners)
      ensures old(Valid()) ==> Valid()
      // a failed cast leaves the payment stored and the reservation not
      // pointing at it, so every later capture ends in DuplicateKey
      ensures result.Err? && result.failure.CastError? ==>
        rid in payments && reservations == old(reservations)
      ensures old(PaymentsLinked()) && result.Ok? ==> PaymentsLinked()
      ensures old(PaymentsLinked()) && result.Err? && result.failure.CastError? ==> !PaymentsLinked()
      ensures old(PaymentsLinked()) && result.Err? && !result.failure.CastError? ==> PaymentsLinked()
      // nothing written when the reservation is missing or already paid for
      ensures rid !in old(reservations) ==>
        result == Err(NotFound) && reservations == old(reservations) && payments == old(payments)
      ensures rid in old(reservations) && rid in old(payments) ==>
        result == Err(DuplicateKey) && reservations == old(reservations) && payments == old(payments)
      // otherwise exactly one payment is created, under the reservation's id
      ensures rid in old(reservations) && rid !in old(payments) ==>
        var p := NewPayment(rid, old(reservations)[rid], body);
        payments.Keys == old(payments).Keys + {rid} &&
        (forall q :: q in old(payments) ==> payments[q] == old(payments)[q]) &&
        payments[rid].id == rid && payments[rid].guestsCount == p.guestsCount &&
        (body.chargePerHead.Absent? ==>
          result == Err(CastError("totalAmount")) && payments[rid] == p &&
          reservations == old(reservations)) &&
        (!body.chargePerHead.Absent? && body.depositPercentage.Absent? ==>
          result == Err(CastError("depositFee")) && payments[rid] == WithTotalAmount(p).value &&
          reservations == old(reservations)) &&
        (!body.chargePerHead.Absent? && !body.depositPercentage.Absent? ==>
          payments[rid] == WithDepositFee(WithTotalAmount(p).value).value &&
          Priced(payments[rid]) &&
          reservations == old(reservations)[rid := Confirm(old(reservations)[rid], rid)] &&
          result == Ok(reservations[rid]))
    {
      // step 1: read the reservation; reading guestsCount of nothing throws
      var found := FindReservation(rid);
      if found.None? {
        return Err(NotFound);
      }
      // step 2
      var saved := SavePayment(rid, found.value, body);
      if saved.Err? {
        return Err(saved.failure);
      }
      // step 3
      var totalled := CalculateTotalFee(saved.value);
      if !totalled {
        return Err(CastError("totalAmount"));
      }
      // step 4
      var reread := FindPayment(rid);
      // step 5
      var feed := CalculateDepositFee(rid, reread.value);
      if !feed {
        return Err(CastError("depositFee"));
      }
      // step 6
      UpdateRef(rid);
      // step 7
      var confirmed := FindReservation(rid);
      result := Ok(confirmed.value);
    }

    // ----- DELETE /:id -----

    /** Step 1: `update` without the multi flag changes at most one diner
        that lists the reservation. Which one is the store's natural order,
        not visible here, so the choice is left open. */
    method UpdateDinerReservation(rid: Id) returns (updated: Option<Id>)
      modifies this
      ensures updated.None? <==> forall d :: d in old(diners) ==> rid !in old(diners)[d].reservations
      ensures updated.None? ==> diners == old(diners)
      ensures updated.Some? ==>
        updated.value in old(diners) && rid in old(diners)[updated.value].reservations &&
        diners == old(diners)[updated.value := PulledFrom(old(diners)[updated.value], rid)]
      ensures reservations == old(reservations) && tables == old(tables) && payments == old(payments)
    {
      if d :| d in diners && rid in diners[d].reservations {
        diners := diners[d := PulledFrom(diners[d], rid)];
        updated := Some(d);
      } else {
        updated := None;
      }
    }

    /** Step 2: `deleteOne` of the reservation; deletedCount is 0 or 1. */
    method RemoveDinerReservation(rid: Id) returns (deletedCount: nat)
      modifies this
      ensures reservations == old(reservations) - {rid}
      ensures deletedCount == if rid in old(reservations) then 1 else 0
      ensures tables == old(tables) && diners == old(diners) && payments == old(payments)
    {
      deletedCount := if rid in reservations then 1 else 0;
      reservations := reservations - {rid};
    }

    /** The whole removal. Tables that list the reservation and its payment
        are left as they were. */
    method RemoveReservation(rid: Id) returns (updated: Option<Id>, deletedCount: nat)
      modifies this
      ensures rid !in reservations && reservations == old(reservations) - {rid}
      ensures deletedCount == if rid in old(reservations) then 1 else 0
      ensures updated.None? <==> forall d :: d in old(diners) ==> rid !in old(diners)[d].reservations
      ensures updated.None? ==> diners == old(diners)
      ensures updated.Some? ==>
        updated.value in old(diners) && rid in old(diners)[updated.value].reservations &&
        diners == old(diners)[updated.value := PulledFrom(old(diners)[updated.value], rid)]
      ensures tables == old(tables) && payments == old(payments)
      ensures old(Valid()) ==> Valid()
      ensures old(Valid()) && old(CountsConsistent()) ==> CountsConsistent()
      // tables that listed the reservation still do: the back-reference dangles
      ensures forall t :: t in tables && rid in old(tables)[t].reservations ==>
        rid in tables[t].reservations && rid !in reservations
      ensures old(Linked()) && rid in old(reservations) &&
              (exists t :: t in old(reservations)[rid].tables && t in tables)
        ==> !BookingsResolved()
      ensures old(Linked()) ==> Linked()
      ensures old(PaymentsLinked()) ==> PaymentsLinked()
    {
      ghost var wasValid, wasConsistent := Valid(), CountsConsistent();
      ghost var before := diners;
      updated := UpdateDinerReservation(rid);
      deletedCount := RemoveDinerReservation(rid);
      if wasValid && wasConsistent && updated.Some? {
        var d := updated.value;
        assert NoDup(before[d].reservations) && DinerCountTracks(before[d]);
        PulledFromKeepsCount(before[d], rid);
      }
    }
  }

  /** Table assignment on a reservation of four guests with two free
      tables, as the contract alone predicts it. */
  method AssignTwoTables()
  {
    var store := new Store(
      map[1 := Reservation(10, [], 0, 4, "2020-01-01", "booked", None)],
      map[20 := Table([], 0), 21 := Table([], 0)],
      map[10 := Diner([1], 1)],
      map[]);
    var doc := store.AssignTables(1, [20, 21]);
    assert doc.Some? && doc.value.status == Pending && doc.value.tableCount == 2;
    assert store.tables[20].reservationCount == 1 && store.tables[21].reservationCount == 1;
  }

  /** Payment capture on that reservation: 4 guests at 25 per head with a
      deposit percentage of 0.2. */
  method PayForFourGuests()
  {
    var store := new Store(
      map[1 := Reservation(10, [20, 21], 2, 4, "2020-01-01", Pending, None)],
      map[20 := Table([1], 1), 21 := Table([1], 1)],
      map[10 := Diner([1], 1)],
      map[]);
    var paid := store.CapturePayment(1, PaymentBody(Given("2020-01-02"), Absent, Given(25.0), Given(0.2)));
    assert paid.Ok? && paid.value.status == Confirmed && paid.value.payment == Some(1);
    FourGuestsExample();
    assert store.payments[1].totalAmount == Some(100.0);
    assert store.payments[1].depositFee == Some(80.0);
  }

  /** A capture without a charge per head stores a payment it never prices;
      the retry with a full body is then refused, and the reservation stays
      pending with no payment. */
  method RetryAfterMissingCharge()
  {
    var store := new Store(
      map[1 := Reservation(10, [20], 1, 4, "2020-01-01", Pending, None)],
      map[20 := Table([1], 1)],
      map[10 := Diner([1], 1)],
      map[]);
    var first := store.CapturePayment(1, PaymentBody(Absent, Absent, Absent, Given(0.2)));
    assert first == Err(CastError("totalAmount")) && 1 in store.payments;
    var retry := store.CapturePayment(1, PaymentBody(Absent, Absent, Given(25.0), Given(0.2)));
    assert retry == Err(DuplicateKey);
    assert store.reservations[1].status == Pending && store.reservations[1].payment == None;
    assert store.payments[1].totalAmount == None;
  }

  /** A body whose guestsCount is an explicit `null`: the `null` replaces the
      reservation's four guests, counts as zero in the product, and the
      reservation is confirmed with a bill and a fee of nothing. */
  method PayWithNullGuests()
  {
    var store := new Store(
      map[1 := Reservation(10, [20], 1, 4, "2020-01-01", Pending, None)],
      map[20 := Table([1], 1)],
      map[10 := Diner([1], 1)],
      map[]);
    var paid := store.CapturePayment(1, PaymentBody(Absent, Null, Given(25.0), Given(0.2)));
    assert paid.Ok? && paid.value.status == Confirmed;
    assert store.payments[1].guestsCount == Null;
    assert store.payments[1].totalAmount == Some(0.0) && store.payments[1].depositFee == Some(0.0);
  }

  /** Removal of that reservation: the diner lets go of it, its tables do not. */
  method RemoveConfirmed()
  {
    var store := new Store(
      map[1 := Reservation(10, [20, 21], 2, 4, "2020-01-01", Confirmed, Some(1))],
      map[20 := Table([1], 1), 21 := Table([1], 1)],
      map[10 := Diner([1], 1)],
      map[]);
    ghost var before := store.diners;
    assert 1 in before[10].reservations;
    var updated, deleted := store.RemoveReservation(1);
    assert updated == Some(10) && deleted == 1;
    assert store.diners[10].reservationCount == 0;
    assert 1 !in store.reservations && store.tables[20].reservations == [1];
  }
}
