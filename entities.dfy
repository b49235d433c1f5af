/** The persistent records of the payment service: payments, the seats they
    reserve, and the enumerations stored in their columns. */
module Entities {

  datatype Option<+T> = None | Some(value: T)

  datatype Result<+T, +E> = Ok(value: T) | Err(error: E)

  /** Lifecycle of a payment; the column stores the lower-case name. */
  datatype PaymentStatus = Pending | Paid | Failed | Cancelled | Refunded

  datatype PaymentMethod =
    | Card
    | BankTransfer
    | WechatPay
    | PromptPay
    | TrueMoney
    | InternetBankingScb
    | InternetBankingBay
    | InternetBankingBbl
    | InternetBankingKbank
    | InternetBankingKtb

  /** The three seat states the payment code reads and writes. */
  datatype SeatStatus = Available | Reserved | Occupied

  /** Payment ids are generated by the store; the model numbers them. */
  type PaymentId = nat
  type SeatId = string
  type ChargeId = string

  /** Milliseconds since the epoch, as `Date.now()` returns them. */
  type Time = int

  /** A payment row. Amounts are integer minor units; description and
      metadata are opaque and not modelled. */
  datatype Payment = Payment(
    id: PaymentId,
    chargeId: ChargeId,
    amount: int,
    currency: string,
    status: PaymentStatus,
    paymentMethod: PaymentMethod,
    customerEmail: Option<string>,
    seatId: Option<SeatId>,
    createdAt: Time)

  /** A seat row, as far as the payment code touches it. */
  datatype Seat = Seat(
    id: SeatId,
    status: SeatStatus,
    reservedUntil: Option<Time>,
    reservedBy: Option<string>)

  /** The service's audit log, reduced to level, action and payment. */
  datatype LogLevel = Info | Warn | Error
  datatype LogEntry = LogEntry(level: LogLevel, action: string, paymentId: Option<PaymentId>)

  /** The errors the services throw: `NotFoundException` and plain `Error`. */
  datatype ServiceError = NotFound(message: string) | Failure(message: string)

  /** JavaScript truthiness of an optional string: absent and "" are false. */
  predicate Present(s: Option<string>)
  {
    s.Some? && s.value != ""
  }

  function StatusName(s: PaymentStatus): (name: string)
    ensures name != ""
  {
    match s
    case Pending => "pending"
    case Paid => "paid"
    case Failed => "failed"
    case Cancelled => "cancelled"
    case Refunded => "refunded"
  }

  function MethodName(m: PaymentMethod): (name: string)
    ensures name != ""
  {
    match m
    case Card => "card"
    case BankTransfer => "bank_transfer"
    case WechatPay => "wechat_pay"
    case PromptPay => "promptpay"
    case TrueMoney => "truemoney"
    case InternetBankingScb => "internet_banking_scb"
    case InternetBankingBay => "internet_banking_bay"
    case InternetBankingBbl => "internet_banking_bbl"
    case InternetBankingKbank => "internet_banking_kbank"
    case InternetBankingKtb => "internet_banking_ktb"
  }

  /** The stored names tell the five statuses apart. */
  lemma StatusNamesDistinct(s1: PaymentStatus, s2: PaymentStatus)
    requires StatusName(s1) == StatusName(s2)
    ensures s1 == s2
  {
  }

  /** The stored names tell the ten methods apart. */
  lemma MethodNamesDistinct(m1: PaymentMethod, m2: PaymentMethod)
    requires MethodName(m1) == MethodName(m2)
    ensures m1 == m2
  {
  }

  const DefaultCurrency: string := "THB"

  /** `currency || 'THB'`: a missing or empty currency becomes THB. */
  function CurrencyOrDefault(currency: Option<string>): (c: string)
    ensures Present(currency) ==> c == currency.value
    ensures !Present(currency) ==> c == DefaultCurrency
    ensures c != ""
  {
    if Present(currency) then currency.value else DefaultCurrency
  }

  /** A freshly created payment row: the status column defaults to pending. */
  function NewPayment(id: PaymentId, chargeId: ChargeId, amount: int, currency: string,
                      paymentMethod: PaymentMethod, customerEmail: Option<string>,
                      seatId: Option<SeatId>, now: Time): (p: Payment)
    ensures p.status == Pending
    ensures p.id == id && p.chargeId == chargeId && p.createdAt == now
    ensures p.seatId == seatId && p.customerEmail == customerEmail
    ensures p.amount == amount && p.currency == currency && p.paymentMethod == paymentMethod
  {
    Payment(id, chargeId, amount, currency, Pending, paymentMethod, customerEmail, seatId, now)
  }

  /** What the payment code guarantees about any seat it has written: an
      available seat carries no reservation, a reserved one has a deadline. */
  predicate SeatShape(s: Seat)
  {
    && (s.status == Available ==> s.reservedUntil.None? && s.reservedBy.None?)
    && (s.status == Reserved ==> s.reservedUntil.Some?)
  }

  /** The seat writes the services perform. */
  datatype SeatChange =
    | Reserve(until: Time, holder: Option<string>)  // hold for a new pending payment
    | Occupy        // status occupied, reserved_until cleared
    | MarkOccupied  // status occupied, reservation fields kept
    | Release       // available, both reservation fields cleared
    | Keep          // saved as loaded

  function ApplyChange(s: Seat, change: SeatChange): (r: Seat)
    ensures r.id == s.id
    ensures SeatShape(s) ==> SeatShape(r)
    ensures change.Release? ==> r.status == Available && r.reservedUntil.None? && r.reservedBy.None?
    ensures change.Occupy? ==> r.status == Occupied && r.reservedUntil.None? && r.reservedBy == s.reservedBy
    ensures change.MarkOccupied? ==> r == s.(status := Occupied)
    ensures change.Reserve? ==> r.status == Reserved && r.reservedUntil == Some(change.until) && r.reservedBy == change.holder
    ensures change.Keep? ==> r == s
  {
    match change
    case Reserve(until, holder) => s.(status := Reserved, reservedUntil := Some(until), reservedBy := holder)
    case Occupy => s.(status := Occupied, reservedUntil := None)
    case MarkOccupied => s.(status := Occupied)
    case Release => s.(status := Available, reservedUntil := None, reservedBy := None)
    case Keep => s
  }
}
