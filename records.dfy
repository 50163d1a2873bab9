/** The four record kinds the reservation workflows touch, and the single-record
    update documents those workflows send to the store, each as a function
    from the record before the update to the record after it. Only the fields
    the workflows read or write are kept. */
module Records {
  import opened UpdateOperators
  import opened Fees

  datatype Option<T> = None | Some(value: T)

  /** A field of a JSON request body, as it reaches the store: left out,
      sent as an explicit `null` (which the store keeps), or a value. */
  datatype Field<T> = Absent | Null | Given(value: T)

  /** Status labels are free strings in the store; the workflows write two. */
  type Status = string
  const Pending: Status := "pending"
  const Confirmed: Status := "confirmed"

  datatype Reservation = Reservation(
    diner: Id,
    tables: seq<Id>,
    tableCount: int,
    guestsCount: int,
    dateReserved: string,
    status: Status,
    payment: Option<Id>)

  datatype Table = Table(reservations: seq<Id>, reservationCount: int)

  datatype Diner = Diner(reservations: seq<Id>, reservationCount: int)

  /** The fields copied from the request keep their absent / null / value
      distinction; the derived amounts are None until written. Amounts are
      reals. */
  datatype Payment = Payment(
    id: Id,
    dateOfPayment: Field<string>,
    guestsCount: Field<int>,
    chargePerHead: Field<real>,
    depositPercentage: Field<real>,
    totalAmount: Option<real>,
    depositFee: Option<real>)

  /** The request body of a payment capture; every field may be left out or
      be `null`. */
  datatype PaymentBody = PaymentBody(
    dateOfPayment: Field<string>,
    guestsCount: Field<int>,
    chargePerHead: Field<real>,
    depositPercentage: Field<real>)

  /** A stored field as an operand of JavaScript's `*` and `-`: `null`
      counts as zero, and a missing field gives `NaN`, here None. */
  function Operand<T>(f: Field<T>, zero: T): (x: Option<T>)
    ensures x.None? <==> f.Absent?
    ensures f.Null? ==> x == Some(zero)
    ensures f.Given? ==> x == Some(f.value)
  {
    match f
    case Absent => None
    case Null => Some(zero)
    case Given(v) => Some(v)
  }

  /** The denormalised counters agree with the reference arrays they count. */
  predicate TableCountTracks(r: Reservation) {
    r.tableCount == |r.tables|
  }

  predicate ReservationCountTracks(t: Table) {
    t.reservationCount == |t.reservations|
  }

  predicate DinerCountTracks(d: Diner) {
    d.reservationCount == |d.reservations|
  }

  /** The derived amounts of a payment agree with its inputs. */
  predicate Priced(p: Payment) {
    var guests, charge := Operand(p.guestsCount, 0), Operand(p.chargePerHead, 0.0);
    var share := Operand(p.depositPercentage, 0.0);
    guests.Some? && charge.Some? && share.Some? &&
    p.totalAmount == Some(TotalAmount(guests.value, charge.value)) &&
    p.depositFee == Some(DepositFee(p.totalAmount.value, share.value))
  }

  // ----- table assignment -----

  /** `$addToSet` of the listed tables, `$inc` of tableCount by the length of
      the list, `$set` of status to pending. */
  function WithTables(r: Reservation, ids: seq<Id>): (r': Reservation)
    ensures r'.status == Pending
    ensures forall t :: t in r'.tables <==> t in r.tables || t in ids
    ensures r.tables <= r'.tables
    ensures NoDup(r.tables) ==> NoDup(r'.tables)
    ensures r'.tableCount == r.tableCount + |ids|
    ensures r'.diner == r.diner && r'.guestsCount == r.guestsCount
    ensures r'.dateReserved == r.dateReserved && r'.payment == r.payment
  {
    r.(tables := AddToSet(r.tables, ids), tableCount := r.tableCount + |ids|, status := Pending)
  }

  /** `$addToSet` of the reservation and `$inc` of reservationCount by one. */
  function WithReservation(t: Table, rid: Id): (t': Table)
    ensures rid in t'.reservations
    ensures forall x :: x in t'.reservations <==> x in t.reservations || x == rid
    ensures t.reservations <= t'.reservations
    ensures NoDup(t.reservations) ==> NoDup(t'.reservations)
    ensures t'.reservationCount == t.reservationCount + 1
  {
    t.(reservations := AddOne(t.reservations, rid), reservationCount := t.reservationCount + 1)
  }

  /** The counter keeps pace with the array when, and only when, every listed
      id is new and listed once. */
  lemma WithTablesKeepsCount(r: Reservation, ids: seq<Id>)
    requires NoDup(r.tables) && TableCountTracks(r)
    ensures TableCountTracks(WithTables(r, ids)) <==> NoDup(ids) && Disjoint(r.tables, ids)
  {
    AddToSetExact(r.tables, ids);
  }

  /** Assigning the same list twice: the table set is as after one assignment,
      but tableCount has grown by twice the length of the list. */
  lemma ReassignTables(r: Reservation, ids: seq<Id>)
    ensures WithTables(WithTables(r, ids), ids).tables == WithTables(r, ids).tables
    ensures WithTables(WithTables(r, ids), ids).tableCount == r.tableCount + 2 * |ids|
  {
    AddToSetIdempotent(r.tables, ids);
  }

  /** So a second assignment of a non-empty list always breaks the counter. */
  lemma ReassignBreaksCount(r: Reservation, ids: seq<Id>)
    requires TableCountTracks(r) && ids != []
    ensures !TableCountTracks(WithTables(WithTables(r, ids), ids))
  {
    ReassignTables(r, ids);
  }

  /** An empty list still forces the status to pending, with no table added
      and tableCount as it was. */
  lemma EmptyAssignmentStillPending(r: Reservation)
    ensures WithTables(r, []).status == Pending
    ensures WithTables(r, []).tables == r.tables && WithTables(r, []).tableCount == r.tableCount
  {
  }

  /** Assigning tables to a confirmed reservation sends it back to pending
      while its payment stays set: nothing orders the status labels. */
  lemma AssignAfterConfirm(r: Reservation, pid: Id, ids: seq<Id>)
    ensures WithTables(Confirm(r, pid), ids).status == Pending
    ensures WithTables(Confirm(r, pid), ids).payment == Some(pid)
  {
  }

  /** A table's counter keeps pace exactly when the reservation was not yet
      listed on it; otherwise it is counted a second time. */
  lemma WithReservationKeepsCount(t: Table, rid: Id)
    requires ReservationCountTracks(t)
    ensures ReservationCountTracks(WithReservation(t, rid)) <==> rid !in t.reservations
  {
  }

  // ----- reservation removal -----

  /** `$pull` of the reservation and `$inc` of reservationCount by minus one. */
  function PulledFrom(d: Diner, rid: Id): (d': Diner)
    ensures rid !in d'.reservations
    ensures forall x :: x in d'.reservations <==> x in d.reservations && x != rid
    ensures multiset(d'.reservations) == multiset(d.reservations)[rid := 0]
    ensures NoDup(d.reservations) ==> NoDup(d'.reservations)
    ensures d'.reservationCount == d.reservationCount - 1
  {
    d.(reservations := Pull(d.reservations, rid), reservationCount := d.reservationCount - 1)
  }

  /** Pulling a reservation the diner lists, once, keeps its counter exact. */
  lemma PulledFromKeepsCount(d: Diner, rid: Id)
    requires NoDup(d.reservations) && DinerCountTracks(d) && rid in d.reservations
    ensures DinerCountTracks(PulledFrom(d, rid))
  {
    PullOnce(d.reservations, rid);
  }

  // ----- payment capture -----

  /** The new payment document: keyed by the reservation, the reservation's
      guestsCount copied unless the body brings its own (a `null` too), the
      body's other fields, and no derived amount yet. */
  function NewPayment(rid: Id, r: Reservation, body: PaymentBody): (p: Payment)
    ensures p.id == rid
    ensures p.guestsCount == (if body.guestsCount.Absent? then Given(r.guestsCount) else body.guestsCount)
    ensures !p.guestsCount.Absent?
    ensures p.chargePerHead == body.chargePerHead && p.depositPercentage == body.depositPercentage
    ensures p.dateOfPayment == body.dateOfPayment
    ensures p.totalAmount == None && p.depositFee == None
  {
    var guests := match body.guestsCount
      case Absent => Given(r.guestsCount)
      case _ => body.guestsCount;
    Payment(rid, body.dateOfPayment, guests, body.chargePerHead, body.depositPercentage, None, None)
  }

  /** The totalAmount update: None when guestsCount or chargePerHead is
      missing, since the product is then not a number and the store refuses
      to cast it; a `null` operand makes the product zero. */
  function WithTotalAmount(p: Payment): (q: Option<Payment>)
    ensures q.Some? <==> !p.guestsCount.Absent? && !p.chargePerHead.Absent?
    ensures q.Some? ==> q.value == p.(totalAmount := Some(TotalAmount(
      Operand(p.guestsCount, 0).value, Operand(p.chargePerHead, 0.0).value)))
    ensures q.Some? && (p.guestsCount.Null? || p.chargePerHead.Null?) ==>
      q.value.totalAmount == Some(0.0)
  {
    match (Operand(p.guestsCount, 0), Operand(p.chargePerHead, 0.0))
    case (Some(g), Some(c)) => Some(p.(totalAmount := Some(TotalAmount(g, c))))
    case _ => None
  }

  /** The depositFee update, refused in the same way when totalAmount or
      depositPercentage is missing; a `null` percentage takes nothing off. */
  function WithDepositFee(p: Payment): (q: Option<Payment>)
    ensures q.Some? <==> p.totalAmount.Some? && !p.depositPercentage.Absent?
    ensures q.Some? ==> q.value == p.(depositFee := Some(DepositFee(
      p.totalAmount.value, Operand(p.depositPercentage, 0.0).value)))
    ensures q.Some? && p.depositPercentage.Null? ==> q.value.depositFee == p.totalAmount
  {
    match (p.totalAmount, Operand(p.depositPercentage, 0.0))
    case (Some(total), Some(share)) => Some(p.(depositFee := Some(DepositFee(total, share))))
    case _ => None
  }

  /** A new payment passes both derivations exactly when the body does not
      leave out the charge per head or the deposit percentage, and then it
      is priced and still carries the snapshot of guestsCount. */
  lemma NewPaymentPriced(rid: Id, r: Reservation, body: PaymentBody)
    ensures var p := NewPayment(rid, r, body);
      (WithTotalAmount(p).Some? && WithDepositFee(WithTotalAmount(p).value).Some?)
      <==> !body.chargePerHead.Absent? && !body.depositPercentage.Absent?
    ensures var p := NewPayment(rid, r, body);
      !body.chargePerHead.Absent? && !body.depositPercentage.Absent? ==>
        var q := WithDepositFee(WithTotalAmount(p).value).value;
        Priced(q) && q.id == rid && q.guestsCount == p.guestsCount
  {
  }

  /** Explicit `null`s in the body are priced as zeros: a `null` guestsCount
      replaces the reservation's own and, like a `null` charge per head,
      makes both amounts zero; a `null` percentage leaves the whole bill as
      the fee. */
  lemma NullFieldsPriceAsZero(rid: Id, r: Reservation, body: PaymentBody)
    requires !body.chargePerHead.Absent? && !body.depositPercentage.Absent?
    ensures var q := WithDepositFee(WithTotalAmount(NewPayment(rid, r, body)).value).value;
      (body.guestsCount.Null? || body.chargePerHead.Null? ==>
        q.totalAmount == Some(0.0) && q.depositFee == Some(0.0)) &&
      (body.depositPercentage.Null? ==> q.depositFee == q.totalAmount)
  {
  }

  /** `$set` of status to confirmed and of payment to the payment's id; the
      tables, counters, diner and guestsCount stay. */
  function Confirm(r: Reservation, pid: Id): (r': Reservation)
    ensures r'.status == Confirmed && r'.payment == Some(pid)
    ensures r'.tables == r.tables && r'.tableCount == r.tableCount
    ensures r'.diner == r.diner && r'.guestsCount == r.guestsCount
    ensures r'.dateReserved == r.dateReserved
  {
    r.(status := Confirmed, payment := Some(pid))
  }
}
