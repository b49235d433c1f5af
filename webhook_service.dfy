/** The second webhook variant: an optional signature gate, then a mapping
    from the event key (and, for `charge.create`, the charge status) to a
    payment status, applied through the shared status routine. Every error
    is logged and rethrown. */
module WebhookEvents {
  import opened Entities
  import opened Repository
  import opened Payments

  /** `data` of the body: the charge id and the charge status it reports. */
  datatype ChargeData = ChargeData(id: ChargeId, status: string)

  /** The body as far as it is read: `key` and `data`. */
  datatype EventBody = EventBody(key: string, data: Option<ChargeData>)

  datatype EventReply = Success | Ignored

  const InvalidSignatureMsg: string := "Invalid webhook signature"
  /** What reading `charge.id` of a missing `data` throws. */
  const MissingDataMsg: string := "Cannot read properties of undefined (reading 'id')"

  /** The result of the event switch: a status to apply, or one of the two
      ignored cases, which differ in what they log. */
  datatype Target = Apply(status: PaymentStatus) | UnhandledCreateStatus | UnhandledEvent

  function TargetStatus(key: string, chargeStatus: string): (t: Target)
    ensures key == "charge.create" ==>
              && (chargeStatus == "successful" ==> t == Apply(Paid))
              && (chargeStatus == "failed" ==> t == Apply(Failed))
              && (chargeStatus == "pending" ==> t == Apply(Pending))
              && (chargeStatus !in {"successful", "failed", "pending"} ==> t == UnhandledCreateStatus)
    ensures key == "charge.complete" ==> t == Apply(Paid)
    ensures key == "charge.failed" ==> t == Apply(Failed)
    ensures key == "charge.pending" ==> t == Apply(Pending)
    ensures key == "charge.reversed" ==> t == Apply(Refunded)
    ensures t == UnhandledEvent <==>
              key !in {"charge.create", "charge.complete", "charge.failed", "charge.pending", "charge.reversed"}
    ensures t.Apply? ==> t.status != Cancelled
  {
    match key
    case "charge.create" =>
      (match chargeStatus
       case "successful" => Apply(Paid)
       case "failed" => Apply(Failed)
       case "pending" => Apply(Pending)
       case _ => UnhandledCreateStatus)
    case "charge.complete" => Apply(Paid)
    case "charge.failed" => Apply(Failed)
    case "charge.pending" => Apply(Pending)
    case "charge.reversed" => Apply(Refunded)
    case _ => UnhandledEvent
  }

  /** The gate: checked only when both the header and the secret are set. */
  predicate SignatureRejected(signature: Option<string>, secret: Option<string>, rawBody: string,
                              hmac: (string, string) -> string)
  {
    Present(signature) && Present(secret) && signature.value != hmac(secret.value, rawBody)
  }

  function Entry(level: LogLevel, action: string, paymentId: Option<PaymentId>): LogEntry
  {
    LogEntry(level, action, paymentId)
  }

  /** The catch block: log the error, then rethrow it. */
  function Rethrown(db: Db, e: ServiceError): (o: Outcome<Result<EventReply, ServiceError>>)
    requires ValidDb(db)
    ensures ValidDb(o.db)
    ensures o == Outcome(Err(e), db.(log := db.log + [Entry(Error, "webhook_error", None)]))
  {
    Outcome(Err(e), WithEntry(db, Entry(Error, "webhook_error", None)))
  }

  /** `handleOmiseWebhook` of the webhook service. */
  function HandleEventOutcome(db: Db, body: EventBody, signature: Option<string>, rawBody: string,
                              secret: Option<string>, hmac: (string, string) -> string)
    : (o: Outcome<Result<EventReply, ServiceError>>)
    requires ValidDb(db)
    ensures ValidDb(o.db)
    ensures o.db.payments.Keys == db.payments.Keys && o.db.seats.Keys == db.seats.Keys
    ensures SignatureRejected(signature, secret, rawBody, hmac) ==>
              && o.reply == Err(Failure(InvalidSignatureMsg))
              && o.db == db.(log := db.log + [Entry(Warn, "webhook_verification", None), Entry(Error, "webhook_error", None)])
    ensures !SignatureRejected(signature, secret, rawBody, hmac) && body.data.None? ==>
              o == Outcome(Err(Failure(MissingDataMsg)), db.(log := db.log + [Entry(Error, "webhook_error", None)]))
    ensures !SignatureRejected(signature, secret, rawBody, hmac) && body.data.Some?
            && !TargetStatus(body.key, body.data.value.status).Apply? ==>
              && o.reply == Ok(Ignored)
              && o.db.payments == db.payments && o.db.seats == db.seats
    ensures !SignatureRejected(signature, secret, rawBody, hmac) && body.data.Some?
            && TargetStatus(body.key, body.data.value.status).Apply? ==>
              var found := FindByCharge(db, body.data.value.id);
              && (found.None? ==> o.reply == Err(NotFound(PaymentNotFoundMsg))
                                  && o.db.payments == db.payments && o.db.seats == db.seats)
              && (found.Some? ==> o.reply == Ok(Success)
                                  && StatusApplied(db, o.db, found.value, TargetStatus(body.key, body.data.value.status).status))
    ensures o.reply.Err? ==> |o.db.log| > |db.log| && o.db.log[|o.db.log| - 1] == Entry(Error, "webhook_error", None)
  {
    if SignatureRejected(signature, secret, rawBody, hmac) then
      Rethrown(WithEntry(db, Entry(Warn, "webhook_verification", None)), Failure(InvalidSignatureMsg))
    else if body.data.None? then
      Rethrown(db, Failure(MissingDataMsg))
    else
      var charge := body.data.value;
      var received := WithEntry(db, Entry(Info, "webhook_received", None));
      match TargetStatus(body.key, charge.status)
      case UnhandledCreateStatus =>
        Outcome(Ok(Ignored), WithEntry(received, Entry(Warn, "webhook_unhandled_create_status", None)))
      case UnhandledEvent =>
        Outcome(Ok(Ignored), WithEntry(received, Entry(Warn, "webhook_unhandled", None)))
      case Apply(status) => Applied(received, charge.id, status)
  }

  /** The update call of a mapped event and what follows it: the success
      entry, or the catch block when the payment is not found. */
  function Applied(db: Db, chargeId: ChargeId, status: PaymentStatus): (o: Outcome<Result<EventReply, ServiceError>>)
    requires ValidDb(db)
    ensures ValidDb(o.db)
    ensures o.db.payments.Keys == db.payments.Keys && o.db.seats.Keys == db.seats.Keys
    ensures FindByCharge(db, chargeId).None? ==>
              o == Outcome(Err(NotFound(PaymentNotFoundMsg)), db.(log := db.log + [Entry(Error, "webhook_error", None)]))
    ensures FindByCharge(db, chargeId).Some? ==>
              && o.reply == Ok(Success)
              && StatusApplied(db, o.db, FindByCharge(db, chargeId).value, status)
  {
    var u := UpdateStatusOutcome(db, chargeId, status);
    if u.reply.Err? then Rethrown(u.db, u.reply.error)
    else Outcome(Ok(Success), WithEntry(u.db, Entry(Info, "webhook_status_update", Some(u.reply.value.id))))
  }

  /** The service object, over the payment service it calls. */
  class WebhookService {
    const payments: PaymentsService
    const secret: Option<string>
    const hmac: (string, string) -> string

    constructor (payments: PaymentsService, secret: Option<string>, hmac: (string, string) -> string)
      ensures this.payments == payments && this.secret == secret && this.hmac == hmac
    {
      this.payments := payments;
      this.secret := secret;
      this.hmac := hmac;
    }

    method HandleOmiseWebhook(body: EventBody, signature: Option<string>, rawBody: string)
      returns (r: Result<EventReply, ServiceError>)
      requires payments.store.Valid()
      modifies payments.store
      ensures payments.store.Valid()
      ensures var o := HandleEventOutcome(old(payments.store.State()), body, signature, rawBody, secret, hmac);
              r == o.reply && payments.store.State() == o.db
    {
      var store := payments.store;
      if SignatureRejected(signature, secret, rawBody, hmac) {
        store.Append(Entry(Warn, "webhook_verification", None));
        store.Append(Entry(Error, "webhook_error", None));
        return Err(Failure(InvalidSignatureMsg));
      }
      if body.data.None? {
        store.Append(Entry(Error, "webhook_error", None));
        return Err(Failure(MissingDataMsg));
      }
      var charge := body.data.value;
      store.Append(Entry(Info, "webhook_received", None));
      var target := TargetStatus(body.key, charge.status);
      if target.UnhandledCreateStatus? {
        store.Append(Entry(Warn, "webhook_unhandled_create_status", None));
        return Ok(Ignored);
      }
      if target.UnhandledEvent? {
        store.Append(Entry(Warn, "webhook_unhandled", None));
        return Ok(Ignored);
      }
      var updated := payments.UpdatePaymentStatus(charge.id, target.status);
      if updated.Err? {
        store.Append(Entry(Error, "webhook_error", None));
        return Err(updated.error);
      }
      store.Append(Entry(Info, "webhook_status_update", Some(updated.value.id)));
      r := Ok(Success);
    }
  }
}
