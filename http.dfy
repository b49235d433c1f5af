/** The create endpoint of the payment service's controller: a thrown error
    becomes an HTTP exception whose status is chosen from the error's code
    and whose body fills in defaults for missing fields. */
module Http {
  import opened Entities
  import opened Errors

  const BadRequest: int := 400
  const PaymentRequired: int := 402
  const InternalServerError: int := 500
  const ServiceUnavailable: int := 503

  /** The fields of a caught error that the controller reads; each may be
      missing. */
  datatype CaughtError = CaughtError(message: Option<string>, code: Option<string>, originalError: Option<string>)

  datatype ExceptionBody = ExceptionBody(message: string, code: string, details: Option<string>)

  datatype HttpException = HttpException(status: int, body: ExceptionBody)

  predicate SeatCode(code: Option<string>)
  {
    code == Some("SEAT_NOT_FOUND") || code == Some("SEAT_NOT_AVAILABLE") || code == Some("INVALID_SEAT_ID")
  }

  predicate PaymentCode(code: Option<string>)
  {
    code == Some("INSUFFICIENT_FUNDS") || code == Some("CARD_DECLINED")
  }

  function HttpStatusFor(code: Option<string>): (s: int)
    ensures s == BadRequest <==> SeatCode(code)
    ensures s == ServiceUnavailable <==> code == Some("PAYMENT_SERVICE_UNAVAILABLE")
    ensures s == PaymentRequired <==> PaymentCode(code)
    ensures s == InternalServerError <==>
              !SeatCode(code) && !PaymentCode(code) && code != Some("PAYMENT_SERVICE_UNAVAILABLE")
  {
    if SeatCode(code) then BadRequest
    else if code == Some("PAYMENT_SERVICE_UNAVAILABLE") then ServiceUnavailable
    else if PaymentCode(code) then PaymentRequired
    else InternalServerError
  }

  /** The body: a missing or empty message or code takes its default, and
      a missing or empty original error becomes null. */
  function BodyFor(e: CaughtError): (b: ExceptionBody)
    ensures Present(e.message) ==> b.message == e.message.value
    ensures !Present(e.message) ==> b.message == DefaultMessage
    ensures Present(e.code) ==> b.code == e.code.value
    ensures !Present(e.code) ==> b.code == CodeName(PaymentCreationFailed)
    ensures Present(e.originalError) ==> b.details == e.originalError
    ensures !Present(e.originalError) ==> b.details.None?
  {
    ExceptionBody(
      if Present(e.message) then e.message.value else DefaultMessage,
      if Present(e.code) then e.code.value else CodeName(PaymentCreationFailed),
      if Present(e.originalError) then e.originalError else None)
  }

  /** `createPayment` of the controller around the service's result. */
  function CreatePaymentEndpoint<T>(result: Result<T, CaughtError>): (r: Result<T, HttpException>)
    ensures result.Ok? ==> r == Ok(result.value)
    ensures result.Err? ==>
              r == Err(HttpException(HttpStatusFor(result.error.code), BodyFor(result.error)))
  {
    match result
    case Ok(v) => Ok(v)
    case Err(e) => Err(HttpException(HttpStatusFor(e.code), BodyFor(e)))
  }

  /** The status a mapped error gets, by its code. */
  function StatusForCode(c: ErrorCode): int
  {
    match c
    case SeatNotFound => BadRequest
    case SeatNotAvailable => BadRequest
    case InvalidSeatId => BadRequest
    case PaymentServiceUnavailable => ServiceUnavailable
    case InsufficientFunds => PaymentRequired
    case CardDeclined => PaymentRequired
    case PaymentCreationFailed => InternalServerError
  }

  /** The error a mapped failure carries into the controller. */
  function Caught(u: UserFacingError): CaughtError
  {
    CaughtError(Some(u.message), Some(CodeName(u.code)), Some(u.originalError))
  }

  /** Every code the mapper can produce gets the status its group is meant
      to have: the mapper and the controller agree on the code names. */
  lemma MappedErrorStatus(e: Thrown)
    ensures HttpStatusFor(Caught(ToUserFacingError(e)).code) == StatusForCode(ToUserFacingError(e).code)
  {
  }

  /** Of the seven codes, only the default one ends as a server error. */
  lemma OnlyDefaultIsServerError(c: ErrorCode)
    ensures HttpStatusFor(Some(CodeName(c))) == InternalServerError <==> c == PaymentCreationFailed
  {
  }
}
