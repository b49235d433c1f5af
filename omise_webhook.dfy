/** The gateway's webhook endpoint: check the HMAC signature of the payload,
    then move the payment and its seat according to the event type. It
    writes the tables directly, without the shared status routine and
    without looking at the payment's current status. */
module OmiseWebhook {
  import opened Entities
  import opened Repository

  /** The parsed body: the event type and, when present, the charge id in
      `data.id`. The payload's other fields are not modelled. */
  datatype WebhookPayload = WebhookPayload(eventType: string, data: Option<ChargeId>)

  /** `{ status: 'success' }`, `{ error: 'Invalid signature' }` and
      `{ error: 'Processing failed' }`; all three are sent with HTTP 200. */
  datatype WebhookReply = WebhookOk | InvalidSignature | ProcessingFailed

  /** `verifyWebhookSignature`: with no secret configured every request
      passes; otherwise the header must equal the hex HMAC-SHA256 of the
      serialised body under the secret. `hmac` is that digest function. */
  function VerifyWebhookSignature(secret: Option<string>, body: string, signature: Option<string>,
                                  hmac: (string, string) -> string): (ok: bool)
    ensures !Present(secret) ==> ok
    ensures Present(secret) ==> (ok <==> signature == Some(hmac(secret.value, body)))
  {
    if !Present(secret) then true
    else signature == Some(hmac(secret.value, body))
  }

  /** The status each handled event type writes; other types are ignored. */
  function DispatchStatus(eventType: string): (s: Option<PaymentStatus>)
    ensures s == Some(Paid) <==> eventType == "charge.complete"
    ensures s == Some(Failed) <==> eventType == "charge.failed"
    ensures s == Some(Cancelled) <==> eventType == "charge.cancel"
    ensures s.None? <==> eventType !in {"charge.complete", "charge.failed", "charge.cancel"}
  {
    if eventType == "charge.complete" then Some(Paid)
    else if eventType == "charge.failed" then Some(Failed)
    else if eventType == "charge.cancel" then Some(Cancelled)
    else None
  }

  /** The action a handler records in the log. */
  function ActionFor(status: PaymentStatus): string
  {
    if status == Paid then "charge_complete"
    else if status == Failed then "charge_failed"
    else "charge_cancel"
  }

  /** The seat write of each handler: a completed charge marks the seat
      occupied and leaves its reservation fields; a failed or cancelled
      charge releases it. */
  function WebhookSeatChange(status: PaymentStatus): SeatChange
  {
    if status == Paid then MarkOccupied else Release
  }

  /** `handleChargeComplete`, `handleChargeFailed` and `handleChargeCancel`.
      The reply is false when the handler throws: the seat update has no
      criteria when the payment names no seat, after the status is written. */
  function ChargeOutcome(db: Db, chargeId: ChargeId, status: PaymentStatus): (o: Outcome<bool>)
    requires ValidDb(db)
    requires status == Paid || status == Failed || status == Cancelled
    ensures ValidDb(o.db)
    ensures FindByCharge(db, chargeId).None? ==> o == Outcome(true, db)
    ensures FindByCharge(db, chargeId).Some? ==>
              var p := FindByCharge(db, chargeId).value;
              && (o.reply <==> Present(p.seatId))
              && o.db.payments == db.payments[p.id := p.(status := status)]
              && o.db.byCharge == db.byCharge && o.db.nextId == db.nextId
              && SeatsAgreeExcept(db.seats, o.db.seats, p.seatId)
              && (Present(p.seatId) ==>
                    var before := db.seats[p.seatId.value];
                    o.db.seats[p.seatId.value]
                      == if status == Paid then before.(status := Occupied)
                         else before.(status := Available, reservedUntil := None, reservedBy := None))
              && o.db.log == db.log + (if Present(p.seatId) then [LogEntry(Info, ActionFor(status), Some(p.id))] else [])
  {
    match FindByCharge(db, chargeId)
    case None => Outcome(true, db)
    case Some(p) =>
      if !Present(p.seatId) then Outcome(false, WithStatus(db, p.id, status))
      else Outcome(true, SeatMarked(db, p, status))
  }

  /** The three writes of a charge handler whose payment names a seat: the
      status, the seat, and the log entry. */
  function SeatMarked(db: Db, p: Payment, status: PaymentStatus): (r: Db)
    requires ValidDb(db)
    requires p.id in db.payments && db.payments[p.id] == p && Present(p.seatId)
    requires status == Paid || status == Failed || status == Cancelled
    ensures ValidDb(r)
    ensures r.payments == db.payments[p.id := p.(status := status)]
    ensures r.byCharge == db.byCharge && r.nextId == db.nextId
    ensures SeatsAgreeExcept(db.seats, r.seats, p.seatId)
    ensures var before := db.seats[p.seatId.value];
            r.seats[p.seatId.value]
              == if status == Paid then before.(status := Occupied)
                 else before.(status := Available, reservedUntil := None, reservedBy := None)
    ensures r.log == db.log + [LogEntry(Info, ActionFor(status), Some(p.id))]
  {
    var saved := WithStatus(db, p.id, status);
    assert saved.payments == db.payments[p.id := p.(status := status)] && saved.seats == db.seats;
    WithEntry(WithSeatChange(saved, p.seatId.value, WebhookSeatChange(status)), LogEntry(Info, ActionFor(status), Some(p.id)))
  }

  /** `handleOmiseWebhook`: a bad signature changes nothing; a handled event
      without `data` throws before any write; a handler that throws turns
      into the processing-failed reply, keeping the writes made before it. */
  function HandleWebhookOutcome(db: Db, payload: WebhookPayload, body: string, signature: Option<string>,
                                secret: Option<string>, hmac: (string, string) -> string): (o: Outcome<WebhookReply>)
    requires ValidDb(db)
    ensures ValidDb(o.db)
    ensures o.reply == InvalidSignature <==> !VerifyWebhookSignature(secret, body, signature, hmac)
    ensures o.reply == InvalidSignature ==> o.db == db
    ensures VerifyWebhookSignature(secret, body, signature, hmac) && DispatchStatus(payload.eventType).None? ==>
              o == Outcome(WebhookOk, db)
    ensures (VerifyWebhookSignature(secret, body, signature, hmac) && DispatchStatus(payload.eventType).Some?
             && payload.data.None?) ==> o == Outcome(ProcessingFailed, db)
    ensures (VerifyWebhookSignature(secret, body, signature, hmac) && DispatchStatus(payload.eventType).Some?
             && payload.data.Some?) ==>
              var c := ChargeOutcome(db, payload.data.value, DispatchStatus(payload.eventType).value);
              o == Outcome(if c.reply then WebhookOk else ProcessingFailed, c.db)
  {
    if !VerifyWebhookSignature(secret, body, signature, hmac) then Outcome(InvalidSignature, db)
    else match DispatchStatus(payload.eventType)
      case None => Outcome(WebhookOk, db)
      case Some(status) =>
        if payload.data.None? then Outcome(ProcessingFailed, db)
        else
          var c := ChargeOutcome(db, payload.data.value, status);
          Outcome(if c.reply then WebhookOk else ProcessingFailed, c.db)
  }

  /** The controller; the secret comes from the configuration, and the body
      serialiser and digest are supplied with it. */
  class OmiseWebhookController {
    const store: Store
    const webhookSecret: Option<string>
    const hmac: (string, string) -> string

    constructor (store: Store, webhookSecret: Option<string>, hmac: (string, string) -> string)
      ensures this.store == store && this.webhookSecret == webhookSecret && this.hmac == hmac
    {
      this.store := store;
      this.webhookSecret := webhookSecret;
      this.hmac := hmac;
    }

    method HandleCharge(chargeId: ChargeId, status: PaymentStatus) returns (ok: bool)
      requires store.Valid()
      requires status == Paid || status == Failed || status == Cancelled
      modifies store
      ensures store.Valid()
      ensures var o := ChargeOutcome(old(store.State()), chargeId, status);
              ok == o.reply && store.State() == o.db
    {
      var found := store.FindByChargeId(chargeId);
      if found.None? {
        return true;
      }
      var payment := found.value;
      store.UpdateStatus(payment.id, status);
      if !Present(payment.seatId) {
        return false;
      }
      store.UpdateSeat(payment.seatId.value, WebhookSeatChange(status));
      store.Append(LogEntry(Info, ActionFor(status), Some(payment.id)));
      ok := true;
    }

    method HandleOmiseWebhook(payload: WebhookPayload, body: string, signature: Option<string>)
      returns (r: WebhookReply)
      requires store.Valid()
      modifies store
      ensures store.Valid()
      ensures var o := HandleWebhookOutcome(old(store.State()), payload, body, signature, webhookSecret, hmac);
              r == o.reply && store.State() == o.db
    {
      if !VerifyWebhookSignature(webhookSecret, body, signature, hmac) {
        return InvalidSignature;
      }
      var status := DispatchStatus(payload.eventType);
      if status.None? {
        return WebhookOk;
      }
      if payload.data.None? {
        return ProcessingFailed;
      }
      var ok := HandleCharge(payload.data.value, status.value);
      r := if ok then WebhookOk else ProcessingFailed;
    }
  }
}
