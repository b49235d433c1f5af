/** Properties of the whole machine: what happens to one payment and its
    seat when several entry points act on them in turn. */
module Scenarios {
  import opened Entities
  import opened Text
  import opened Repository
  import opened Omise
  import opened Payments
  import opened OmiseWebhook
  import opened Cleanup
  import opened Errors
  import opened Http

  /** A payment created against a free seat and then completed by the
      webhook controller is paid and its seat occupied, but the seat keeps
      the deadline and holder of the hold. */
  lemma {:induction false} ReserveThenPayByWebhook(db: Db, req: CreatePaymentRequest, chargeId: ChargeId, now: Time)
    requires ValidDb(db)
    requires CreateAccepted(db, req, chargeId) && Present(req.seatId)
    ensures var created := CreateOutcome(db, req, chargeId, now);
            var paid := ChargeOutcome(created.db, chargeId, Paid);
            && paid.reply
            && db.nextId in paid.db.payments && paid.db.payments[db.nextId].status == Paid
            && req.seatId.value in paid.db.seats
            && paid.db.seats[req.seatId.value]
                 == Seat(req.seatId.value, Occupied, Some(now + HoldMillis), req.customerEmail)
  {
    var created := CreateOutcome(db, req, chargeId, now);
    var id, seat := db.nextId, req.seatId.value;
    assert created.db.payments[id].seatId == req.seatId;
    assert FindByCharge(created.db, chargeId) == Some(created.db.payments[id]);
    assert created.db.seats[seat] == Seat(seat, Reserved, Some(now + HoldMillis), req.customerEmail);
  }

  /** The same payment completed through the shared status routine (a
      status check or a forced update) also clears the deadline. */
  lemma {:induction false} ReserveThenPayByStatusRoutine(db: Db, req: CreatePaymentRequest, chargeId: ChargeId, now: Time)
    requires ValidDb(db)
    requires CreateAccepted(db, req, chargeId) && Present(req.seatId)
    ensures var created := CreateOutcome(db, req, chargeId, now);
            var paid := UpdateStatusOutcome(created.db, chargeId, Paid);
            && paid.reply.Ok?
            && db.nextId in paid.db.payments && paid.db.payments[db.nextId].status == Paid
            && req.seatId.value in paid.db.seats
            && paid.db.seats[req.seatId.value] == Seat(req.seatId.value, Occupied, None, req.customerEmail)
  {
    var created := CreateOutcome(db, req, chargeId, now);
    var id, seat := db.nextId, req.seatId.value;
    assert created.db.payments[id].seatId == req.seatId;
    assert FindByCharge(created.db, chargeId) == Some(created.db.payments[id]);
    assert created.db.seats[seat] == Seat(seat, Reserved, Some(now + HoldMillis), req.customerEmail);
  }

  /** The sweep selects a payment exactly when the hold its creation placed
      on the seat has run out. */
  lemma {:induction false} SweepSelectsLapsedHolds(db: Db, req: CreatePaymentRequest, chargeId: ChargeId, t: Time, now: Time)
    requires ValidDb(db)
    requires CreateAccepted(db, req, chargeId) && Present(req.seatId)
    ensures var created := CreateOutcome(db, req, chargeId, t).db;
            && db.nextId in created.payments && req.seatId.value in created.seats
            && created.seats[req.seatId.value].reservedUntil.Some?
            && (IsExpired(created.payments[db.nextId], now) <==>
                created.seats[req.seatId.value].reservedUntil.value < now)
  {
    var created := CreateOutcome(db, req, chargeId, t).db;
    assert created.payments[db.nextId].createdAt == t && created.payments[db.nextId].status == Pending;
    assert created.seats[req.seatId.value].reservedUntil == Some(t + HoldMillis);
  }

  /** A payment created with a mock charge and left unpaid past its hold is
      cancelled by the sweep, and its seat is free again. */
  lemma {:induction false} ReserveThenExpire(db: Db, req: CreatePaymentRequest, suffix: string, t: Time, now: Time,
                                             gw: Gateway, ps: seq<Payment>)
    requires ValidDb(db)
    requires CreateAccepted(db, req, MockChargePrefix + suffix) && Present(req.seatId)
    requires now > t + HoldMillis
    requires SelectsExpired(CreateOutcome(db, req, MockChargePrefix + suffix, t).db, now, ps)
    ensures var created := CreateOutcome(db, req, MockChargePrefix + suffix, t).db;
            var swept := Sweep(created, ps, gw);
            && db.nextId in swept.payments && swept.payments[db.nextId].status == Cancelled
            && req.seatId.value in swept.seats
            && swept.seats[req.seatId.value] == Seat(req.seatId.value, Available, None, None)
  {
    var chargeId := MockChargePrefix + suffix;
    var created := CreateOutcome(db, req, chargeId, t).db;
    var p := created.payments[db.nextId];
    assert p.createdAt == t && p.status == Pending && p.chargeId == chargeId && p.seatId == req.seatId;
    assert IsExpired(p, now);
    assert p in created.payments.Values;
    var k :| 0 <= k < |ps| && ps[k] == p;
    MockChargesCancel(gw, suffix);
    SweepCancels(created, ps, gw, k);
    SweepReleases(created, ps, gw, k);
  }

  /** There is no terminal-state guard: a failure event that arrives after
      the completion event turns the paid payment into a failed one and
      frees its seat. */
  lemma {:induction false} LateFailureUndoesPayment(db: Db, chargeId: ChargeId)
    requires ValidDb(db)
    requires FindByCharge(db, chargeId).Some? && Present(FindByCharge(db, chargeId).value.seatId)
    ensures var p := FindByCharge(db, chargeId).value;
            var paid := ChargeOutcome(db, chargeId, Paid);
            var failed := ChargeOutcome(paid.db, chargeId, Failed);
            && paid.db.payments[p.id].status == Paid
            && paid.db.seats[p.seatId.value].status == Occupied
            && failed.db.payments[p.id].status == Failed
            && failed.db.seats[p.seatId.value] == Seat(p.seatId.value, Available, None, None)
  {
    var p := FindByCharge(db, chargeId).value;
    var paid := ChargeOutcome(db, chargeId, Paid);
    assert FindByCharge(paid.db, chargeId) == Some(p.(status := Paid));
  }

  /** The sweep writes by id from the row it selected: a payment that was
      completed after the selection is still cancelled, and its seat freed,
      when the gateway accepts the cancellation. */
  lemma {:induction false} SweepOverridesPayment(db: Db, p: Payment, gw: Gateway)
    requires ValidDb(db)
    requires p.id in db.payments && db.payments[p.id] == p
    requires Present(p.seatId) && CancelAccepted(p, gw)
    ensures var paid := ChargeOutcome(db, p.chargeId, Paid);
            var swept := ExpiredProcessed(paid.db, p, gw);
            && paid.db.payments[p.id].status == Paid
            && swept.payments[p.id].status == Cancelled
            && swept.seats[p.seatId.value] == Seat(p.seatId.value, Available, None, None)
  {
    assert FindByCharge(db, p.chargeId) == Some(p);
  }

  /** A forced update whose charge is still pending at the gateway moves a
      paid payment back to pending and leaves its seat as it is. */
  lemma {:induction false} ForceUpdateRevertsPayment(db: Db, id: PaymentId, gw: Gateway)
    requires ValidDb(db)
    requires id in db.payments && db.payments[id].status == Paid && db.payments[id].chargeId != ""
    requires Retrieve(gw, db.payments[id].chargeId) == Some(ChargeReport("pending", false))
    ensures var o := ForceUpdateOutcome(db, id, gw);
            && o.reply == Ok(StatusReply(id, Pending, db.payments[id].chargeId))
            && o.db.payments[id].status == Pending
            && o.db.seats == db.seats
  {
    var p := db.payments[id];
    var o := ForceUpdateOutcome(db, id, gw);
    assert StatusFromCharge(ChargeReport("pending", false)) == Pending;
    KeepingStatusLeavesSeats(db, o.db, p, Pending);
  }

  /** A message that contains "Seat not found" and neither gateway-auth
      pattern maps to the seat-not-found code, whatever else it says. */
  lemma SeatNotFoundVerdict(m: string)
    requires !AuthFailure(m) && Contains(m, "Seat not found")
    ensures ToUserFacingError(ErrorObject(m)).code == SeatNotFound
  {
  }

  /** A message that contains "Seat is not available" and none of the
      earlier patterns maps to the seat-not-available code. */
  lemma SeatNotAvailableVerdict(m: string)
    requires !AuthFailure(m) && !Contains(m, "Seat not found") && Contains(m, "Seat is not available")
    ensures ToUserFacingError(ErrorObject(m)).code == ErrorCode.SeatNotAvailable
  {
  }

  /** A message that contains the uuid syntax error and none of the earlier
      patterns maps to the invalid-seat code. */
  lemma UuidVerdict(m: string)
    requires !AuthFailure(m) && !Contains(m, "Seat not found") && !Contains(m, "Seat is not available")
    requires Contains(m, "invalid input syntax for type uuid")
    ensures ToUserFacingError(ErrorObject(m)).code == InvalidSeatId
  {
  }

  /** Letters the three seat-related messages do not contain; each rules
      out an earlier pattern of the mapper. */
  lemma SeatNotFoundLacks(c: char)
    requires c == 'x' || c == 'h'
    ensures c !in SeatNotFoundMsg
  {
  }

  lemma SeatNotAvailableLacks(c: char)
    requires c == 'x' || c == 'h' || c == 'f'
    ensures c !in SeatNotAvailableMsg
  {
  }

  lemma UuidSyntaxLacks(c: char)
    requires c == 'k' || c == 'h' || c == 'S'
    ensures c !in UuidSyntax
  {
  }

  /** The literal message "Seat not found" maps to its own code. */
  lemma SeatNotFoundCode(m: string)
    requires m == SeatNotFoundMsg
    ensures ToUserFacingError(ErrorObject(m)).code == SeatNotFound
  {
    SeatNotFoundLacks('x');
    SeatNotFoundLacks('h');
    Lacks(m, "expired key", 'x');
    Lacks(m, "authentication failed", 'h');
    ContainsSelf(m);
    SeatNotFoundVerdict(m);
  }

  /** The literal message "Seat is not available" maps to its own code, not
      to the seat-not-found one. */
  lemma SeatNotAvailableCode(m: string)
    requires m == SeatNotAvailableMsg
    ensures ToUserFacingError(ErrorObject(m)).code == ErrorCode.SeatNotAvailable
  {
    SeatNotAvailableLacks('x');
    SeatNotAvailableLacks('h');
    SeatNotAvailableLacks('f');
    Lacks(m, "expired key", 'x');
    Lacks(m, "authentication failed", 'h');
    Lacks(m, "Seat not found", 'f');
    ContainsSelf(m);
    SeatNotAvailableVerdict(m);
  }

  /** The uuid syntax message, which the insert fails with for an empty
      seat id, maps to the invalid-seat code. */
  lemma UuidErrorCode(m: string)
    requires m == UuidSyntax
    ensures ToUserFacingError(ErrorObject(m)).code == InvalidSeatId
  {
    UuidSyntaxLacks('k');
    UuidSyntaxLacks('h');
    UuidSyntaxLacks('S');
    Lacks(m, "expired key", 'k');
    Lacks(m, "authentication failed", 'h');
    Lacks(m, "Seat not found", 'S');
    Lacks(m, "Seat is not available", 'S');
    ContainsSelf(m);
    UuidVerdict(m);
  }

  /** The three seat-related messages, passed through the mapper and the
      payment-service create endpoint, become HTTP 400. */
  lemma SeatErrorsAreBadRequests(m: string)
    requires m == SeatNotFoundMsg || m == SeatNotAvailableMsg || m == UuidSyntax
    ensures HttpStatusFor(Caught(ToUserFacingError(ErrorObject(m))).code) == BadRequest
  {
    if m == SeatNotFoundMsg {
      SeatNotFoundCode(m);
    } else if m == SeatNotAvailableMsg {
      SeatNotAvailableCode(m);
    } else {
      UuidErrorCode(m);
    }
    MappedErrorStatus(ErrorObject(m));
  }
}
