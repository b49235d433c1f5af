/** The expiry sweep: select the pending payments older than the hold, then
    for each one cancel its gateway charge, mark it cancelled, release its
    seat and log the expiry. The sweep works from the rows it selected and
    writes by id, whatever has happened to those rows since. */
module Cleanup {
  import opened Entities
  import opened Repository
  import opened Omise
  import opened Payments

  /** The selection of `findExpiredPayments`: pending and created strictly
      more than the hold period before `now`. */
  predicate IsExpired(p: Payment, now: Time)
  {
    p.status == Pending && p.createdAt < now - HoldMillis
  }

  /** A list of payments that is exactly the expired rows of `db`, each once;
      the query sets no order, so any order is allowed. */
  ghost predicate SelectsExpired(db: Db, now: Time, ps: seq<Payment>)
  {
    && (forall p :: p in ps <==> p in db.payments.Values && IsExpired(p, now))
    && (forall i, j :: 0 <= i < j < |ps| ==> ps[i].id != ps[j].id)
  }

  /** Whether step 1 of `processExpiredPayment` lets the rest run: a payment
      with no charge id skips the gateway; otherwise the cancellation must
      succeed. */
  predicate CancelAccepted(p: Payment, gw: Gateway)
  {
    p.chargeId == "" || CancelCharge(gw, p.chargeId)
  }

  function ExpiredEntry(level: LogLevel, p: Payment): LogEntry
  {
    LogEntry(level, if level == Info then "payment_expired" else "payment_expired_error", Some(p.id))
  }

  /** `processExpiredPayment` for the selected row `p`. Every path appends
      exactly one log entry: the expiry, or the error when the gateway
      refuses the cancellation (nothing else is written then) or when the
      payment names no seat (the status is already written then). */
  function ExpiredProcessed(db: Db, p: Payment, gw: Gateway): (r: Db)
    requires ValidDb(db)
    ensures ValidDb(r)
    ensures r.byCharge == db.byCharge && r.nextId == db.nextId
    ensures r.log == db.log + [ExpiredEntry(if CancelAccepted(p, gw) && Present(p.seatId) then Info else Error, p)]
    ensures !CancelAccepted(p, gw) ==> r.payments == db.payments && r.seats == db.seats
    ensures CancelAccepted(p, gw) ==>
              && PaymentsAgreeExcept(db.payments, r.payments, p.id)
              && (p.id in db.payments ==> r.payments[p.id] == db.payments[p.id].(status := Cancelled))
              && SeatsAgreeExcept(db.seats, r.seats, if Present(p.seatId) then p.seatId else None)
              && (Present(p.seatId) && p.seatId.value in db.seats ==>
                    r.seats[p.seatId.value]
                      == db.seats[p.seatId.value].(status := Available, reservedUntil := None, reservedBy := None))
  {
    if !CancelAccepted(p, gw) then WithEntry(db, ExpiredEntry(Error, p))
    else
      var cancelled := WithStatus(db, p.id, Cancelled);
      assert cancelled.seats == db.seats && cancelled.log == db.log;
      if !Present(p.seatId) then WithEntry(cancelled, ExpiredEntry(Error, p))
      else WithEntry(WithSeatChange(cancelled, p.seatId.value, Release), ExpiredEntry(Info, p))
  }

  /** The `for` loop of `handleExpiredPayments`, one selected row after the
      other. */
  function Sweep(db: Db, ps: seq<Payment>, gw: Gateway): (r: Db)
    requires ValidDb(db)
    ensures ValidDb(r)
    ensures r.byCharge == db.byCharge && r.nextId == db.nextId
    ensures r.payments.Keys == db.payments.Keys && r.seats.Keys == db.seats.Keys
    ensures |r.log| == |db.log| + |ps| && r.log[..|db.log|] == db.log
    decreases |ps|
  {
    if ps == [] then db
    else ExpiredProcessed(Sweep(db, ps[..|ps| - 1], gw), ps[|ps| - 1], gw)
  }

  /** A sweep leaves as it was every payment it was not given, and every
      one whose gateway cancellation was refused. */
  lemma {:induction false} SweepLeavesOthers(db: Db, ps: seq<Payment>, gw: Gateway, id: PaymentId)
    requires ValidDb(db)
    requires id in db.payments
    requires forall k :: 0 <= k < |ps| && ps[k].id == id ==> !CancelAccepted(ps[k], gw)
    ensures Sweep(db, ps, gw).payments[id] == db.payments[id]
    decreases |ps|
  {
    if ps != [] {
      SweepLeavesOthers(db, ps[..|ps| - 1], gw, id);
    }
  }

  /** A sweep leaves every seat alone that no row with an accepted
      cancellation names. */
  lemma {:induction false} SweepLeavesOtherSeats(db: Db, ps: seq<Payment>, gw: Gateway, seat: SeatId)
    requires ValidDb(db)
    requires seat in db.seats
    requires forall k :: 0 <= k < |ps| && CancelAccepted(ps[k], gw) && Present(ps[k].seatId) ==>
                ps[k].seatId.value != seat
    ensures Sweep(db, ps, gw).seats[seat] == db.seats[seat]
    decreases |ps|
  {
    if ps != [] {
      var prefix, last := ps[..|ps| - 1], ps[|ps| - 1];
      assert forall k :: 0 <= k < |prefix| ==> prefix[k] == ps[k];
      SweepLeavesOtherSeats(db, prefix, gw, seat);
      assert CancelAccepted(last, gw) && Present(last.seatId) ==> last.seatId.value != seat;
    }
  }

  /** The sweep handles the rows one at a time in list order: each one,
      failed or not, adds one log entry, for that row. */
  lemma {:induction false} SweepLogsInOrder(db: Db, ps: seq<Payment>, gw: Gateway, k: nat)
    requires ValidDb(db)
    requires k < |ps|
    ensures var r := Sweep(db, ps, gw);
            r.log[|db.log| + k].paymentId == Some(ps[k].id)
            && r.log[|db.log| + k].action in {"payment_expired", "payment_expired_error"}
    decreases |ps|
  {
    var prefix, last := ps[..|ps| - 1], ps[|ps| - 1];
    var mid := Sweep(db, prefix, gw);
    var r := ExpiredProcessed(mid, last, gw);
    assert Sweep(db, ps, gw) == r;
    if k < |ps| - 1 {
      assert prefix[k] == ps[k];
      SweepLogsInOrder(db, prefix, gw, k);
      assert r.log[|db.log| + k] == mid.log[|db.log| + k];
    }
  }

  /** One step of the sweep keeps a cancelled row cancelled, and cancels the
      row it processes when the gateway accepts. */
  lemma StepCancels(db: Db, p: Payment, gw: Gateway, id: PaymentId)
    requires ValidDb(db) && id in db.payments
    requires db.payments[id].status == Cancelled || (p.id == id && CancelAccepted(p, gw))
    ensures ExpiredProcessed(db, p, gw).payments[id].status == Cancelled
  {
  }

  /** One step of the sweep keeps a released seat released, and releases
      the seat of the row it processes when the gateway accepts. */
  lemma StepReleases(db: Db, p: Payment, gw: Gateway, seat: SeatId)
    requires ValidDb(db) && seat in db.seats
    requires var s := db.seats[seat];
             (s.status == Available && s.reservedUntil.None? && s.reservedBy.None?)
             || (p.seatId == Some(seat) && Present(p.seatId) && CancelAccepted(p, gw))
    ensures var s := ExpiredProcessed(db, p, gw).seats[seat];
            s.status == Available && s.reservedUntil.None? && s.reservedBy.None?
  {
  }

  /** After a sweep, every row it was given whose gateway cancellation went
      through is cancelled, whatever its status was by then. */
  lemma {:induction false} SweepCancels(db: Db, ps: seq<Payment>, gw: Gateway, k: nat)
    requires ValidDb(db)
    requires k < |ps| && ps[k].id in db.payments && CancelAccepted(ps[k], gw)
    ensures Sweep(db, ps, gw).payments[ps[k].id].status == Cancelled
    decreases |ps|
  {
    var prefix, last := ps[..|ps| - 1], ps[|ps| - 1];
    var mid := Sweep(db, prefix, gw);
    if k < |ps| - 1 {
      assert prefix[k] == ps[k];
      SweepCancels(db, prefix, gw, k);
    }
    StepCancels(mid, last, gw, ps[k].id);
  }

  /** After a sweep, the seat of every row it was given whose cancellation
      went through is available with no reservation. */
  lemma {:induction false} SweepReleases(db: Db, ps: seq<Payment>, gw: Gateway, k: nat)
    requires ValidDb(db)
    requires k < |ps| && CancelAccepted(ps[k], gw)
    requires Present(ps[k].seatId) && ps[k].seatId.value in db.seats
    ensures var s := Sweep(db, ps, gw).seats[ps[k].seatId.value];
            s.status == Available && s.reservedUntil.None? && s.reservedBy.None?
    decreases |ps|
  {
    var prefix, last := ps[..|ps| - 1], ps[|ps| - 1];
    var mid := Sweep(db, prefix, gw);
    if k < |ps| - 1 {
      assert prefix[k] == ps[k];
      SweepReleases(db, prefix, gw, k);
    }
    StepReleases(mid, last, gw, ps[k].seatId.value);
  }

  datatype CleanupReply = CleanupSuccess | CleanupError

  class CleanupController {
    const store: Store

    constructor (store: Store)
      ensures this.store == store
    {
      this.store := store;
    }

    /** `findExpiredPayments`, with the clock reading as a parameter. */
    method FindExpiredPayments(now: Time) returns (expired: seq<Payment>)
      requires store.Valid()
      ensures SelectsExpired(store.State(), now, expired)
    {
      var keys := store.payments.Keys;
      expired := [];
      while keys != {}
        invariant keys <= store.payments.Keys
        invariant forall p :: p in expired <==> p in store.payments.Values && p.id !in keys && IsExpired(p, now)
        invariant forall i, j :: 0 <= i < j < |expired| ==> expired[i].id != expired[j].id
        invariant forall i :: 0 <= i < |expired| ==> expired[i].id !in keys
        decreases keys
      {
        var k :| k in keys;
        var p := store.payments[k];
        if IsExpired(p, now) {
          expired := expired + [p];
        }
        keys := keys - {k};
      }
    }

    method ProcessExpiredPayment(p: Payment, gw: Gateway)
      requires store.Valid()
      modifies store
      ensures store.Valid()
      ensures store.State() == ExpiredProcessed(old(store.State()), p, gw)
    {
      if p.chargeId != "" && !CancelCharge(gw, p.chargeId) {
        store.Append(ExpiredEntry(Error, p));
        return;
      }
      store.UpdateStatus(p.id, Cancelled);
      if !Present(p.seatId) {
        store.Append(ExpiredEntry(Error, p));
        return;
      }
      store.UpdateSeat(p.seatId.value, Release);
      store.Append(ExpiredEntry(Info, p));
    }

    /** `handleExpiredPayments`; the selected rows are returned so that the
        contract can name them. */
    method HandleExpiredPayments(now: Time, gw: Gateway) returns (expired: seq<Payment>)
      requires store.Valid()
      modifies store
      ensures store.Valid()
      ensures SelectsExpired(old(store.State()), now, expired)
      ensures store.State() == Sweep(old(store.State()), expired, gw)
      ensures expired == [] ==> store.State() == old(store.State())
    {
      ghost var db0 := store.State();
      expired := FindExpiredPayments(now);
      var i := 0;
      while i < |expired|
        invariant 0 <= i <= |expired|
        invariant store.Valid()
        invariant store.State() == Sweep(db0, expired[..i], gw)
      {
        assert expired[..i + 1][..i] == expired[..i];
        assert Sweep(db0, expired[..i + 1], gw) == ExpiredProcessed(Sweep(db0, expired[..i], gw), expired[i], gw);
        ProcessExpiredPayment(expired[i], gw);
        i := i + 1;
      }
      assert expired[..i] == expired;
    }

    /** `triggerPaymentCleanup`: the per-payment handler catches every
        failure, so the sweep as modelled always reports success. */
    method TriggerPaymentCleanup(now: Time, gw: Gateway) returns (r: CleanupReply)
      requires store.Valid()
      modifies store
      ensures store.Valid()
      ensures r == CleanupSuccess
      ensures exists expired :: SelectsExpired(old(store.State()), now, expired)
                                && store.State() == Sweep(old(store.State()), expired, gw)
    {
      var expired := HandleExpiredPayments(now, gw);
      r := CleanupSuccess;
    }
  }
}
