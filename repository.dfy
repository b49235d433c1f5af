/** The database the services share: the payments table with its unique
    charge-id column, the seats table and the payment log. `Db` is its value;
    `Store` is the mutable object the services hold, one method per kind of
    repository write. */
module Repository {
  import opened Entities

  datatype Db = Db(
    payments: map<PaymentId, Payment>,
    seats: map<SeatId, Seat>,
    byCharge: map<ChargeId, PaymentId>,  // the unique index on omise_charge_id
    nextId: PaymentId,                   // the next generated payment id
    log: seq<LogEntry>)

  /** The reply of an operation together with the database it leaves. */
  datatype Outcome<+T> = Outcome(reply: T, db: Db)

  /** Table integrity: rows are stored under their keys, the charge-id index
      is a bijection with the payments, generated ids are below `nextId`,
      every seat a payment names exists, and every seat has a sound shape. */
  ghost predicate ValidDb(db: Db)
  {
    && (forall id :: id in db.payments ==> db.payments[id].id == id && id < db.nextId)
    && (forall id :: id in db.payments ==>
          db.payments[id].chargeId in db.byCharge && db.byCharge[db.payments[id].chargeId] == id)
    && (forall c :: c in db.byCharge ==>
          db.byCharge[c] in db.payments && db.payments[db.byCharge[c]].chargeId == c)
    && (forall id :: id in db.payments && db.payments[id].seatId.Some? ==>
          db.payments[id].seatId.value in db.seats)
    && (forall s :: s in db.seats ==> db.seats[s].id == s && SeatShape(db.seats[s]))
  }

  /** Two payment tables that differ at most in the row `id`. */
  ghost predicate PaymentsAgreeExcept(a: map<PaymentId, Payment>, b: map<PaymentId, Payment>, id: PaymentId)
  {
    a.Keys == b.Keys && forall k :: k in a && k != id ==> b[k] == a[k]
  }

  /** Two seat tables that differ at most in the row `seat` names. */
  ghost predicate SeatsAgreeExcept(a: map<SeatId, Seat>, b: map<SeatId, Seat>, seat: Option<SeatId>)
  {
    a.Keys == b.Keys && forall k :: k in a && Some(k) != seat ==> b[k] == a[k]
  }

  /** `findOne({ where: { omise_charge_id } })`. */
  function FindByCharge(db: Db, chargeId: ChargeId): (r: Option<Payment>)
    requires ValidDb(db)
    ensures r.Some? ==> r.value.id in db.payments && db.payments[r.value.id] == r.value
    ensures r.Some? ==> r.value.chargeId == chargeId
    ensures r.None? ==> forall id :: id in db.payments ==> db.payments[id].chargeId != chargeId
  {
    if chargeId in db.byCharge then Some(db.payments[db.byCharge[chargeId]]) else None
  }

  /** The unique index: one charge id names at most one payment. */
  lemma ChargeIdIsUnique(db: Db, id1: PaymentId, id2: PaymentId)
    requires ValidDb(db)
    requires id1 in db.payments && id2 in db.payments
    requires db.payments[id1].chargeId == db.payments[id2].chargeId
    ensures id1 == id2
  {
    assert db.byCharge[db.payments[id1].chargeId] == id1;
  }

  /** `update(id, { status })` or `save` of a loaded row whose status changed;
      an id with no row updates nothing. */
  function WithStatus(db: Db, id: PaymentId, status: PaymentStatus): (r: Db)
    requires ValidDb(db)
    ensures ValidDb(r)
  {
    if id in db.payments then db.(payments := db.payments[id := db.payments[id].(status := status)])
    else db
  }

  /** `update(seatId, ...)` or `save` of a loaded seat; an id with no row
      updates nothing. */
  function WithSeatChange(db: Db, seatId: SeatId, change: SeatChange): (r: Db)
    requires ValidDb(db)
    ensures ValidDb(r)
  {
    if seatId in db.seats then db.(seats := db.seats[seatId := ApplyChange(db.seats[seatId], change)])
    else db
  }

  function WithEntry(db: Db, entry: LogEntry): (r: Db)
    requires ValidDb(db)
    ensures ValidDb(r)
  {
    db.(log := db.log + [entry])
  }

  /** Column types and constraints an insert is checked against. */
  const UuidSyntax: string := "invalid input syntax for type uuid"
  const VarcharTooLong: string := "value too long for type character varying(255)"
  const NumericOverflow: string := "numeric field overflow"
  const CurrencyTooLong: string := "value too long for type character varying(3)"
  const DuplicateChargeId: string := "duplicate key value violates unique constraint"

  /** `decimal(10, 2)`: at most eight digits before the point. */
  predicate AmountFits(amount: int)
  {
    -100_000_000 < amount < 100_000_000
  }

  /** The length limits of the payments table: the charge id and the email
      are `varchar(255)` (the email may be null), the currency `varchar(3)`,
      and the amount `decimal(10, 2)`. */
  predicate ColumnsFit(chargeId: ChargeId, amount: int, currency: string, customerEmail: Option<string>)
  {
    && |chargeId| <= 255
    && AmountFits(amount)
    && |currency| <= 3
    && (customerEmail.Some? ==> |customerEmail.value| <= 255)
  }

  /** The error an insert fails with, if any: the seat id is parsed as a
      uuid first, then the values are fitted to their columns in column
      order, and the unique index is checked last. */
  function ConstraintError(db: Db, chargeId: ChargeId, amount: int, currency: string,
                           customerEmail: Option<string>, seatId: Option<SeatId>): (e: Option<string>)
    ensures e.None? <==>
              seatId != Some("") && ColumnsFit(chargeId, amount, currency, customerEmail) && chargeId !in db.byCharge
    ensures seatId == Some("") ==> e == Some(UuidSyntax)
    ensures seatId != Some("") && !ColumnsFit(chargeId, amount, currency, customerEmail) ==>
              e == Some(VarcharTooLong) || e == Some(NumericOverflow) || e == Some(CurrencyTooLong)
    ensures seatId != Some("") && |chargeId| <= 255 && !AmountFits(amount) ==> e == Some(NumericOverflow)
    ensures e == Some(DuplicateChargeId) <==>
              seatId != Some("") && ColumnsFit(chargeId, amount, currency, customerEmail) && chargeId in db.byCharge
  {
    if seatId == Some("") then Some(UuidSyntax)
    else if |chargeId| > 255 then Some(VarcharTooLong)
    else if !AmountFits(amount) then Some(NumericOverflow)
    else if |currency| > 3 then Some(CurrencyTooLong)
    else if customerEmail.Some? && |customerEmail.value| > 255 then Some(VarcharTooLong)
    else if chargeId in db.byCharge then Some(DuplicateChargeId)
    else None
  }

  /** `paymentRepository.save(create({...}))` of a new pending payment: it
      fails with the first constraint the row breaks, and a seat it names
      must exist. */
  function Inserted(db: Db, chargeId: ChargeId, amount: int, currency: string,
                    paymentMethod: PaymentMethod, customerEmail: Option<string>,
                    seatId: Option<SeatId>, now: Time): (o: Outcome<Result<Payment, ServiceError>>)
    requires ValidDb(db)
    requires seatId.Some? && seatId.value != "" ==> seatId.value in db.seats
    ensures ValidDb(o.db)
    ensures o.reply.Ok? <==>
              seatId != Some("") && ColumnsFit(chargeId, amount, currency, customerEmail) && chargeId !in db.byCharge
    ensures o.reply.Err? ==>
              && o.db == db
              && o.reply.error == Failure(ConstraintError(db, chargeId, amount, currency, customerEmail, seatId).value)
    ensures o.reply.Ok? ==> forall id :: id in db.payments ==> db.payments[id].chargeId != chargeId
    ensures o.reply.Ok? ==>
              && o.reply.value == NewPayment(db.nextId, chargeId, amount, currency, paymentMethod, customerEmail, seatId, now)
              && o.db == db.(payments := db.payments[db.nextId := o.reply.value],
                             byCharge := db.byCharge[chargeId := db.nextId],
                             nextId := db.nextId + 1)
  {
    match ConstraintError(db, chargeId, amount, currency, customerEmail, seatId)
    case Some(e) => Outcome(Err(Failure(e)), db)
    case None =>
      var p := NewPayment(db.nextId, chargeId, amount, currency, paymentMethod, customerEmail, seatId, now);
      Outcome(Ok(p), db.(payments := db.payments[p.id := p],
                         byCharge := db.byCharge[chargeId := p.id],
                         nextId := db.nextId + 1))
  }

  /** The repositories, as one mutable object. */
  class Store {
    var payments: map<PaymentId, Payment>
    var seats: map<SeatId, Seat>
    var byCharge: map<ChargeId, PaymentId>
    var nextId: PaymentId
    var log: seq<LogEntry>

    function State(): Db
      reads this
    {
      Db(payments, seats, byCharge, nextId, log)
    }

    ghost predicate Valid()
      reads this
    {
      ValidDb(State())
    }

    /** An empty payments table over the given seats. */
    constructor (initialSeats: map<SeatId, Seat>)
      requires forall s :: s in initialSeats ==> initialSeats[s].id == s && SeatShape(initialSeats[s])
      ensures Valid()
      ensures State() == Db(map[], initialSeats, map[], 0, [])
    {
      payments, seats, byCharge, nextId, log := map[], initialSeats, map[], 0, [];
    }

    function FindPayment(id: PaymentId): (r: Option<Payment>)
      reads this
      ensures r.Some? <==> id in payments
      ensures r.Some? ==> r.value == payments[id]
    {
      if id in payments then Some(payments[id]) else None
    }

    function FindByChargeId(chargeId: ChargeId): (r: Option<Payment>)
      reads this
      requires Valid()
      ensures r == FindByCharge(State(), chargeId)
    {
      if chargeId in byCharge then Some(payments[byCharge[chargeId]]) else None
    }

    function FindSeat(seatId: SeatId): (r: Option<Seat>)
      reads this
      ensures r.Some? <==> seatId in seats
      ensures r.Some? ==> r.value == seats[seatId]
    {
      if seatId in seats then Some(seats[seatId]) else None
    }

    method UpdateStatus(id: PaymentId, status: PaymentStatus)
      requires Valid()
      modifies this
      ensures Valid()
      ensures State() == WithStatus(old(State()), id, status)
    {
      if id in payments {
        payments := payments[id := payments[id].(status := status)];
      }
    }

    method UpdateSeat(seatId: SeatId, change: SeatChange)
      requires Valid()
      modifies this
      ensures Valid()
      ensures State() == WithSeatChange(old(State()), seatId, change)
    {
      if seatId in seats {
        seats := seats[seatId := ApplyChange(seats[seatId], change)];
      }
    }

    method Append(entry: LogEntry)
      requires Valid()
      modifies this
      ensures Valid()
      ensures State() == WithEntry(old(State()), entry)
    {
      log := log + [entry];
    }

    method Insert(chargeId: ChargeId, amount: int, currency: string, paymentMethod: PaymentMethod,
                  customerEmail: Option<string>, seatId: Option<SeatId>, now: Time)
      returns (r: Result<Payment, ServiceError>)
      requires Valid()
      requires seatId.Some? && seatId.value != "" ==> seatId.value in seats
      modifies this
      ensures Valid()
      ensures var o := Inserted(old(State()), chargeId, amount, currency, paymentMethod, customerEmail, seatId, now);
              r == o.reply && State() == o.db
    {
      ghost var o := Inserted(State(), chargeId, amount, currency, paymentMethod, customerEmail, seatId, now);
      var e := ConstraintError(State(), chargeId, amount, currency, customerEmail, seatId);
      if e.Some? {
        return Err(Failure(e.value));
      }
      var p := NewPayment(nextId, chargeId, amount, currency, paymentMethod, customerEmail, seatId, now);
      payments := payments[p.id := p];
      byCharge := byCharge[chargeId := p.id];
      nextId := nextId + 1;
      assert State() == o.db;
      r := Ok(p);
    }
  }
}
