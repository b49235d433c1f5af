/** The payment service: creating a payment against a seat, the shared
    status-transition routine, cancellation, and the two ways a payment's
    status is refreshed from the gateway. Each operation is a function from
    the database to an `Outcome`, and a method of `PaymentsService` that
    performs the same repository writes in the same order on a `Store`. */
module Payments {
  import opened Entities
  import opened Repository
  import opened Omise

  /** How long a new payment holds its seat: 15 minutes, in milliseconds. */
  const HoldMillis: int := 15 * 60 * 1000

  const CardIncompleteMsg: string := "Card details are incomplete for tokenization"
  const SeatNotFoundMsg: string := "Seat not found"
  const SeatNotAvailableMsg: string := "Seat is not available"
  const PaymentNotFoundMsg: string := "Payment not found"
  const OnlyPendingMsg: string := "Only pending payments can be cancelled"
  const NoChargeIdMsg: string := "No Omise charge ID found"
  const ForceUpdateFailedMsg: string := "Failed to update payment status from Omise"

  datatype CardDetails = CardDetails(
    number: Option<string>,
    name: Option<string>,
    expirationMonth: Option<string>,
    expirationYear: Option<string>,
    securityCode: Option<string>)

  datatype CreatePaymentRequest = CreatePaymentRequest(
    amount: int,
    currency: Option<string>,
    paymentMethod: PaymentMethod,
    seatId: Option<SeatId>,
    customerEmail: Option<string>,
    token: Option<string>,
    card: CardDetails)

  datatype PaymentResponse = PaymentResponse(id: PaymentId, status: PaymentStatus)

  /** The `{ id, status, omise_charge_id }` reply of the status endpoints. */
  datatype StatusReply = StatusReply(id: PaymentId, status: PaymentStatus, chargeId: ChargeId)

  predicate CardComplete(c: CardDetails)
  {
    Present(c.number) && Present(c.name) && Present(c.expirationMonth)
    && Present(c.expirationYear) && Present(c.securityCode)
  }

  /** A card payment needs all five card fields; other methods need none. */
  predicate CardAccepted(req: CreatePaymentRequest)
  {
    req.paymentMethod == Card ==> CardComplete(req.card)
  }

  /** Everything `createPayment` checks before it succeeds, in its order:
      the card fields, the seat's existence and availability, then the
      constraints of the payments table. */
  predicate CreateAccepted(db: Db, req: CreatePaymentRequest, chargeId: ChargeId)
  {
    && CardAccepted(req)
    && (Present(req.seatId) ==> req.seatId.value in db.seats && db.seats[req.seatId.value].status == Available)
    && req.seatId != Some("")
    && ColumnsFit(chargeId, req.amount, CurrencyOrDefault(req.currency), req.customerEmail)
    && chargeId !in db.byCharge
  }

  /** The constraint error the insert of a creation request fails with. */
  function InsertError(db: Db, req: CreatePaymentRequest, chargeId: ChargeId): Option<string>
  {
    ConstraintError(db, chargeId, req.amount, CurrencyOrDefault(req.currency), req.customerEmail, req.seatId)
  }

  const CreateFailedEntry: LogEntry := LogEntry(Error, "create_payment", None)

  /** The payment, with its new status, and its seat after `updatePaymentStatus`:
      paid occupies the seat and clears its deadline but keeps its holder,
      failed and cancelled release it, pending and refunded leave it alone.
      Nothing else in the two tables changes. */
  ghost predicate StatusApplied(db: Db, db': Db, p: Payment, status: PaymentStatus)
  {
    && db'.payments == db.payments[p.id := p.(status := status)]
    && db'.byCharge == db.byCharge
    && db'.nextId == db.nextId
    && SeatsAgreeExcept(db.seats, db'.seats, p.seatId)
    && (p.seatId.Some? && p.seatId.value in db.seats ==>
          var before := db.seats[p.seatId.value];
          var after := db'.seats[p.seatId.value];
          && (status == Paid ==> after == before.(status := Occupied, reservedUntil := None))
          && (status == Failed || status == Cancelled ==>
                after == before.(status := Available, reservedUntil := None, reservedBy := None))
          && (status == Pending || status == Refunded ==> after == before))
  }

  /** A move to pending or refunded leaves the seats table as it was. */
  lemma KeepingStatusLeavesSeats(db: Db, db': Db, p: Payment, status: PaymentStatus)
    requires StatusApplied(db, db', p, status) && (status == Pending || status == Refunded)
    ensures db'.seats == db.seats
  {
    forall s | s in db.seats
      ensures db'.seats[s] == db.seats[s]
    {
    }
  }

  /** The seat write `updatePaymentStatus` performs for a status. */
  function SeatChangeFor(status: PaymentStatus): (c: SeatChange)
    ensures c == Occupy <==> status == Paid
    ensures c == Release <==> status == Failed || status == Cancelled
    ensures c == Keep <==> status == Pending || status == Refunded
  {
    match status
    case Paid => Occupy
    case Failed => Release
    case Cancelled => Release
    case Pending => Keep
    case Refunded => Keep
  }

  /** The two writes of `updatePaymentStatus` after the lookup: the payment's
      status, then its seat (when the seat row is found). */
  function Transitioned(db: Db, p: Payment, status: PaymentStatus): (r: Db)
    requires ValidDb(db)
    requires p.id in db.payments && db.payments[p.id] == p
    ensures ValidDb(r)
    ensures StatusApplied(db, r, p, status)
    ensures r.log == db.log
  {
    var saved := WithStatus(db, p.id, status);
    assert saved.payments == db.payments[p.id := p.(status := status)] && saved.seats == db.seats;
    if p.seatId.Some? && p.seatId.value in saved.seats
    then WithSeatChange(saved, p.seatId.value, SeatChangeFor(status))
    else saved
  }

  function CreateOutcome(db: Db, req: CreatePaymentRequest, chargeId: ChargeId, now: Time)
    : (o: Outcome<Result<PaymentResponse, ServiceError>>)
    requires ValidDb(db)
    ensures ValidDb(o.db)
    ensures o.reply.Ok? <==> CreateAccepted(db, req, chargeId)
    ensures o.reply.Err? ==> o.db == db.(log := db.log + [CreateFailedEntry])
    ensures !CardAccepted(req) ==> o.reply == Err(Failure(CardIncompleteMsg))
    ensures CardAccepted(req) && Present(req.seatId) && req.seatId.value !in db.seats ==>
              o.reply == Err(NotFound(SeatNotFoundMsg))
    ensures CardAccepted(req) && Present(req.seatId) && req.seatId.value in db.seats
            && db.seats[req.seatId.value].status != Available ==>
              o.reply == Err(Failure(SeatNotAvailableMsg))
    ensures CardAccepted(req)
            && (Present(req.seatId) ==> req.seatId.value in db.seats && db.seats[req.seatId.value].status == Available)
            && InsertError(db, req, chargeId).Some? ==>
              o.reply == Err(Failure(InsertError(db, req, chargeId).value))
    ensures o.reply.Ok? ==>
              var id := db.nextId;
              && id !in db.payments
              && o.reply.value == PaymentResponse(id, Pending)
              && o.db.payments == db.payments[id := NewPayment(id, chargeId, req.amount,
                   CurrencyOrDefault(req.currency), req.paymentMethod, req.customerEmail, req.seatId, now)]
              && FindByCharge(o.db, chargeId) == Some(o.db.payments[id])
              && (Present(req.seatId) ==>
                    o.db.seats == db.seats[req.seatId.value := db.seats[req.seatId.value].(
                      status := Reserved, reservedUntil := Some(now + HoldMillis), reservedBy := req.customerEmail)])
              && (!Present(req.seatId) ==> o.db.seats == db.seats)
              && o.db.log == db.log + [LogEntry(Info, "create_payment", Some(id))]
  {
    if !CardAccepted(req) then
      Outcome(Err(Failure(CardIncompleteMsg)), WithEntry(db, CreateFailedEntry))
    else if Present(req.seatId) && req.seatId.value !in db.seats then
      Outcome(Err(NotFound(SeatNotFoundMsg)), WithEntry(db, CreateFailedEntry))
    else if Present(req.seatId) && db.seats[req.seatId.value].status != Available then
      Outcome(Err(Failure(SeatNotAvailableMsg)), WithEntry(db, CreateFailedEntry))
    else BookOutcome(db, req, chargeId, now)
  }

  /** The rest of `createPayment` once the card and the seat have passed:
      the insert, the reservation of the seat and the success entry. */
  function BookOutcome(db: Db, req: CreatePaymentRequest, chargeId: ChargeId, now: Time)
    : (o: Outcome<Result<PaymentResponse, ServiceError>>)
    requires ValidDb(db)
    requires Present(req.seatId) ==> req.seatId.value in db.seats
    ensures ValidDb(o.db)
    ensures o.reply.Ok? <==>
              && req.seatId != Some("")
              && ColumnsFit(chargeId, req.amount, CurrencyOrDefault(req.currency), req.customerEmail)
              && chargeId !in db.byCharge
    ensures o.reply.Err? ==>
              && o.db == db.(log := db.log + [CreateFailedEntry])
              && o.reply == Err(Failure(InsertError(db, req, chargeId).value))
    ensures o.reply.Ok? ==>
              var id := db.nextId;
              && id !in db.payments
              && o.reply.value == PaymentResponse(id, Pending)
              && o.db.payments == db.payments[id := NewPayment(id, chargeId, req.amount,
                   CurrencyOrDefault(req.currency), req.paymentMethod, req.customerEmail, req.seatId, now)]
              && FindByCharge(o.db, chargeId) == Some(o.db.payments[id])
              && (Present(req.seatId) ==>
                    o.db.seats == db.seats[req.seatId.value := db.seats[req.seatId.value].(
                      status := Reserved, reservedUntil := Some(now + HoldMillis), reservedBy := req.customerEmail)])
              && (!Present(req.seatId) ==> o.db.seats == db.seats)
              && o.db.log == db.log + [LogEntry(Info, "create_payment", Some(id))]
  {
    var saved := Inserted(db, chargeId, req.amount, CurrencyOrDefault(req.currency), req.paymentMethod,
                          req.customerEmail, req.seatId, now);
    if saved.reply.Err? then
      Outcome(Err(saved.reply.error), WithEntry(db, CreateFailedEntry))
    else
      var p := saved.reply.value;
      Outcome(Ok(PaymentResponse(p.id, p.status)), Confirmed(saved.db, p.id, req, now))
  }

  /** The seat hold and the success entry that follow a successful insert. */
  function Confirmed(db: Db, id: PaymentId, req: CreatePaymentRequest, now: Time): (r: Db)
    requires ValidDb(db)
    ensures ValidDb(r)
    ensures r.payments == db.payments && r.byCharge == db.byCharge && r.nextId == db.nextId
    ensures Present(req.seatId) && req.seatId.value in db.seats ==>
              r.seats == db.seats[req.seatId.value := db.seats[req.seatId.value].(
                status := Reserved, reservedUntil := Some(now + HoldMillis), reservedBy := req.customerEmail)]
    ensures !(Present(req.seatId) && req.seatId.value in db.seats) ==> r.seats == db.seats
    ensures r.log == db.log + [LogEntry(Info, "create_payment", Some(id))]
  {
    var reserved := if Present(req.seatId)
                    then WithSeatChange(db, req.seatId.value, Reserve(now + HoldMillis, req.customerEmail))
                    else db;
    WithEntry(reserved, LogEntry(Info, "create_payment", Some(id)))
  }

  function UpdateStatusOutcome(db: Db, chargeId: ChargeId, status: PaymentStatus)
    : (o: Outcome<Result<Payment, ServiceError>>)
    requires ValidDb(db)
    ensures ValidDb(o.db)
    ensures o.reply.Err? <==> FindByCharge(db, chargeId).None?
    ensures o.reply.Err? ==> o.reply.error == NotFound(PaymentNotFoundMsg) && o.db == db
    ensures o.reply.Ok? ==>
              var p := FindByCharge(db, chargeId).value;
              && o.reply.value == p.(status := status)
              && StatusApplied(db, o.db, p, status)
              && o.db.log == db.log + [LogEntry(Info, "update_status", Some(p.id))]
  {
    match FindByCharge(db, chargeId)
    case None => Outcome(Err(NotFound(PaymentNotFoundMsg)), db)
    case Some(p) =>
      Outcome(Ok(p.(status := status)), WithEntry(Transitioned(db, p, status), LogEntry(Info, "update_status", Some(p.id))))
  }

  /** The log entries `cancelPayment` writes: a warning when the gateway
      refuses to reverse the charge, then the cancellation itself. */
  function CancelEntries(p: Payment, gw: Gateway): (entries: seq<LogEntry>)
    ensures 1 <= |entries| <= 2
    ensures entries[|entries| - 1] == LogEntry(Info, "cancel_payment", Some(p.id))
    ensures |entries| == 2 <==> p.chargeId != "" && !ReverseCharge(gw, p.chargeId)
    ensures |entries| == 2 ==> entries[0] == LogEntry(Warn, "cancel_payment", Some(p.id))
  {
    (if p.chargeId != "" && !ReverseCharge(gw, p.chargeId) then [LogEntry(Warn, "cancel_payment", Some(p.id))] else [])
    + [LogEntry(Info, "cancel_payment", Some(p.id))]
  }

  function CancelOutcome(db: Db, id: PaymentId, gw: Gateway): (o: Outcome<Result<Payment, ServiceError>>)
    requires ValidDb(db)
    ensures ValidDb(o.db)
    ensures id !in db.payments ==> o == Outcome(Err(NotFound(PaymentNotFoundMsg)), db)
    ensures id in db.payments && db.payments[id].status != Pending ==>
              o == Outcome(Err(Failure(OnlyPendingMsg)), db)
    ensures o.reply.Ok? <==> id in db.payments && db.payments[id].status == Pending
    ensures o.reply.Ok? ==>
              && o.reply.value == db.payments[id].(status := Cancelled)
              && StatusApplied(db, o.db, db.payments[id], Cancelled)
              && o.db.log == db.log + CancelEntries(db.payments[id], gw)
  {
    if id !in db.payments then Outcome(Err(NotFound(PaymentNotFoundMsg)), db)
    else
      var p := db.payments[id];
      if p.status != Pending then Outcome(Err(Failure(OnlyPendingMsg)), db)
      else
        var warned := if p.chargeId != "" && !ReverseCharge(gw, p.chargeId)
                      then WithEntry(db, LogEntry(Warn, "cancel_payment", Some(id)))
                      else db;
        Outcome(Ok(p.(status := Cancelled)), WithEntry(Transitioned(warned, p, Cancelled), LogEntry(Info, "cancel_payment", Some(id))))
  }

  /** The local status a gateway charge report stands for. */
  function StatusFromCharge(report: ChargeReport): (s: PaymentStatus)
    ensures s == Paid <==> report.status == "successful" && report.paid
    ensures s == Failed <==> report.status == "failed"
    ensures s == Paid || s == Failed || s == Pending
  {
    if report.status == "successful" && report.paid then Paid
    else if report.status == "failed" then Failed
    else Pending
  }

  function ForceUpdateOutcome(db: Db, id: PaymentId, gw: Gateway): (o: Outcome<Result<StatusReply, ServiceError>>)
    requires ValidDb(db)
    ensures ValidDb(o.db)
    ensures id !in db.payments ==> o == Outcome(Err(NotFound(PaymentNotFoundMsg)), db)
    ensures id in db.payments && db.payments[id].chargeId == "" ==> o == Outcome(Err(Failure(NoChargeIdMsg)), db)
    ensures id in db.payments && db.payments[id].chargeId != "" && Retrieve(gw, db.payments[id].chargeId).None? ==>
              o == Outcome(Err(Failure(ForceUpdateFailedMsg)), db)
    ensures id in db.payments && db.payments[id].chargeId != "" && Retrieve(gw, db.payments[id].chargeId).Some? ==>
              var p := db.payments[id];
              var s := StatusFromCharge(Retrieve(gw, p.chargeId).value);
              && o.reply == Ok(StatusReply(id, s, p.chargeId))
              && (p.status == s ==> o.db == db)
              && (p.status != s ==> o.db == UpdateStatusOutcome(db, p.chargeId, s).db && StatusApplied(db, o.db, p, s))
  {
    if id !in db.payments then Outcome(Err(NotFound(PaymentNotFoundMsg)), db)
    else
      var p := db.payments[id];
      if p.chargeId == "" then Outcome(Err(Failure(NoChargeIdMsg)), db)
      else match Retrieve(gw, p.chargeId)
        case None => Outcome(Err(Failure(ForceUpdateFailedMsg)), db)
        case Some(report) =>
          var s := StatusFromCharge(report);
          if p.status == s then Outcome(Ok(StatusReply(id, s, p.chargeId)), db)
          else
            var updated := UpdateStatusOutcome(db, p.chargeId, s);
            if updated.reply.Err? then Outcome(Err(Failure(ForceUpdateFailedMsg)), updated.db)
            else Outcome(Ok(StatusReply(id, s, p.chargeId)), updated.db)
  }

  /** Whether `getPaymentStatus` asks the gateway at all. */
  predicate ConsultsGateway(p: Payment)
  {
    p.status == Pending && p.chargeId != ""
  }

  function GetStatusOutcome(db: Db, id: PaymentId, gw: Gateway): (o: Outcome<Result<StatusReply, ServiceError>>)
    requires ValidDb(db)
    ensures ValidDb(o.db)
    ensures id !in db.payments ==> o == Outcome(Err(NotFound(PaymentNotFoundMsg)), db)
    ensures id in db.payments ==> o.reply.Ok? && o.reply.value.id == id && o.reply.value.chargeId == db.payments[id].chargeId
    ensures id in db.payments && !ConsultsGateway(db.payments[id]) ==>
              o == Outcome(Ok(StatusReply(id, db.payments[id].status, db.payments[id].chargeId)), db)
    ensures id in db.payments && ConsultsGateway(db.payments[id]) ==>
              var p := db.payments[id];
              var report := Retrieve(gw, p.chargeId);
              && (report.None? || StatusFromCharge(report.value) == Pending ==>
                    o == Outcome(Ok(StatusReply(id, Pending, p.chargeId)), db))
              && (report.Some? && StatusFromCharge(report.value) != Pending ==>
                    var s := StatusFromCharge(report.value);
                    o.reply.value.status == s && o.db == UpdateStatusOutcome(db, p.chargeId, s).db
                    && StatusApplied(db, o.db, p, s))
  {
    if id !in db.payments then Outcome(Err(NotFound(PaymentNotFoundMsg)), db)
    else
      var p := db.payments[id];
      var local := Outcome(Ok(StatusReply(id, p.status, p.chargeId)), db);
      if !ConsultsGateway(p) then local
      else match Retrieve(gw, p.chargeId)
        case None => local
        case Some(report) =>
          if report.status == "successful" && report.paid then
            var updated := UpdateStatusOutcome(db, p.chargeId, Paid);
            if updated.reply.Err? then Outcome(local.reply, updated.db)
            else Outcome(Ok(StatusReply(id, Paid, p.chargeId)), updated.db)
          else if report.status == "failed" then
            var updated := UpdateStatusOutcome(db, p.chargeId, Failed);
            if updated.reply.Err? then Outcome(local.reply, updated.db)
            else Outcome(Ok(StatusReply(id, Failed, p.chargeId)), updated.db)
          else local
  }

  /** The gateway source type each method would be charged through; a card
      is charged with a token instead. */
  function SourceType(m: PaymentMethod): (t: Option<string>)
    ensures t.None? <==> m == Card
    ensures m != Card && m != WechatPay && m != BankTransfer ==> t == Some(MethodName(m))
    ensures m == WechatPay ==> t == Some("wechat")
    ensures m == BankTransfer ==> t == Some("bill_payment_tesco_lotus")
  {
    match m
    case Card => None
    case PromptPay => Some("promptpay")
    case TrueMoney => Some("truemoney")
    case WechatPay => Some("wechat")
    case InternetBankingScb => Some("internet_banking_scb")
    case InternetBankingBay => Some("internet_banking_bay")
    case InternetBankingBbl => Some("internet_banking_bbl")
    case InternetBankingKbank => Some("internet_banking_kbank")
    case InternetBankingKtb => Some("internet_banking_ktb")
    case BankTransfer => Some("bill_payment_tesco_lotus")
  }

  /** Distinct methods are charged through distinct sources. */
  lemma SourceTypeInjective(m1: PaymentMethod, m2: PaymentMethod)
    requires SourceType(m1).Some? && SourceType(m1) == SourceType(m2)
    ensures m1 == m2
  {
  }

  /** One entry of the payment-method catalogue; display strings are left out. */
  datatype MethodInfo = MethodInfo(id: string, kind: string, enabled: bool)

  datatype MethodsResponse = MethodsResponse(methods: seq<MethodInfo>, defaultMethod: string)

  /** The catalogue entry of one method; every entry is enabled. */
  function Offer(m: PaymentMethod): (info: MethodInfo)
    ensures info.id == MethodName(m) && info.enabled
  {
    match m
    case Card => MethodInfo("card", "card", true)
    case PromptPay => MethodInfo("promptpay", "qr_code", true)
    case TrueMoney => MethodInfo("truemoney", "wallet", true)
    case WechatPay => MethodInfo("wechat_pay", "wallet", true)
    case InternetBankingScb => MethodInfo("internet_banking_scb", "banking", true)
    case InternetBankingBay => MethodInfo("internet_banking_bay", "banking", true)
    case InternetBankingBbl => MethodInfo("internet_banking_bbl", "banking", true)
    case InternetBankingKbank => MethodInfo("internet_banking_kbank", "banking", true)
    case InternetBankingKtb => MethodInfo("internet_banking_ktb", "banking", true)
    case BankTransfer => MethodInfo("bank_transfer", "banking", true)
  }

  const Catalogue: seq<MethodInfo> := [
    Offer(Card), Offer(PromptPay), Offer(TrueMoney), Offer(WechatPay),
    Offer(InternetBankingScb), Offer(InternetBankingBay), Offer(InternetBankingBbl),
    Offer(InternetBankingKbank), Offer(InternetBankingKtb), Offer(BankTransfer)
  ]

  /** `r` is `ms` with some entries dropped and the rest kept in order. */
  predicate Subsequence<T(==)>(r: seq<T>, ms: seq<T>)
    decreases |ms|
  {
    if ms == [] then r == []
    else (r != [] && r[0] == ms[0] && Subsequence(r[1..], ms[1..])) || Subsequence(r, ms[1..])
  }

  /** `methods.filter(method => method.enabled)`: the enabled entries, in
      their order. */
  function EnabledOnly(ms: seq<MethodInfo>): (r: seq<MethodInfo>)
    ensures Subsequence(r, ms)
    ensures forall k :: 0 <= k < |r| ==> r[k].enabled
    ensures forall m :: m in r <==> m in ms && m.enabled
    ensures |r| <= |ms|
    ensures (forall k :: 0 <= k < |ms| ==> ms[k].enabled) ==> r == ms
  {
    if ms == [] then []
    else
      var rest := EnabledOnly(ms[1..]);
      if ms[0].enabled then
        assert ([ms[0]] + rest)[1..] == rest;
        assert ms == [ms[0]] + ms[1..];
        [ms[0]] + rest
      else rest
  }

  /** The filter keeps every copy of an enabled entry and no copy of a
      disabled one. */
  lemma {:induction false} EnabledOnlyCounts(ms: seq<MethodInfo>)
    ensures var r := EnabledOnly(ms);
            forall m :: multiset(r)[m] == if m.enabled then multiset(ms)[m] else 0
  {
    if ms != [] {
      EnabledOnlyCounts(ms[1..]);
      assert ms == [ms[0]] + ms[1..];
      assert multiset(ms) == multiset{ms[0]} + multiset(ms[1..]);
    }
  }

  /** Every entry of the catalogue is enabled, so the reply is the whole
      catalogue, in its order. */
  function GetPaymentMethods(): (r: MethodsResponse)
    ensures r.defaultMethod == "card"
    ensures r.methods == Catalogue
    ensures forall m :: m in r.methods <==> m in Catalogue && m.enabled
  {
    assert forall k :: 0 <= k < |Catalogue| ==> Catalogue[k].enabled;
    MethodsResponse(EnabledOnly(Catalogue), "card")
  }

  /** Where each payment method sits in the catalogue. */
  function CatalogueIndex(m: PaymentMethod): (k: nat)
    ensures k < |Catalogue| && Catalogue[k] == Offer(m)
  {
    match m
    case Card => 0
    case PromptPay => 1
    case TrueMoney => 2
    case WechatPay => 3
    case InternetBankingScb => 4
    case InternetBankingBay => 5
    case InternetBankingBbl => 6
    case InternetBankingKbank => 7
    case InternetBankingKtb => 8
    case BankTransfer => 9
  }

  /** Every payment method is offered, under its stored name. */
  lemma EveryMethodOffered(m: PaymentMethod)
    ensures exists info :: info in GetPaymentMethods().methods && info.id == MethodName(m)
  {
    var k := CatalogueIndex(m);
    assert Catalogue[k] in Catalogue;
  }

  /** The service object; its repositories are the shared `Store`. */
  class PaymentsService {
    const store: Store

    constructor (store: Store)
      ensures this.store == store
    {
      this.store := store;
    }

    method CreatePayment(req: CreatePaymentRequest, chargeId: ChargeId, now: Time)
      returns (r: Result<PaymentResponse, ServiceError>)
      requires store.Valid()
      modifies store
      ensures store.Valid()
      ensures var o := CreateOutcome(old(store.State()), req, chargeId, now);
              r == o.reply && store.State() == o.db
    {
      if req.paymentMethod == Card && !CardComplete(req.card) {
        store.Append(CreateFailedEntry);
        return Err(Failure(CardIncompleteMsg));
      }
      if Present(req.seatId) {
        var seat := store.FindSeat(req.seatId.value);
        if seat.None? {
          store.Append(CreateFailedEntry);
          return Err(NotFound(SeatNotFoundMsg));
        }
        if seat.value.status != Available {
          store.Append(CreateFailedEntry);
          return Err(Failure(SeatNotAvailableMsg));
        }
      }
      r := Book(req, chargeId, now);
    }

    /** The insert, the reservation and the success entry. */
    method Book(req: CreatePaymentRequest, chargeId: ChargeId, now: Time)
      returns (r: Result<PaymentResponse, ServiceError>)
      requires store.Valid()
      requires Present(req.seatId) ==> req.seatId.value in store.State().seats
      modifies store
      ensures store.Valid()
      ensures var o := BookOutcome(old(store.State()), req, chargeId, now);
              r == o.reply && store.State() == o.db
    {
      var saved := store.Insert(chargeId, req.amount, CurrencyOrDefault(req.currency), req.paymentMethod,
                                req.customerEmail, req.seatId, now);
      if saved.Err? {
        store.Append(CreateFailedEntry);
        return Err(saved.error);
      }
      Confirm(saved.value.id, req, now);
      r := Ok(PaymentResponse(saved.value.id, saved.value.status));
    }

    method Confirm(id: PaymentId, req: CreatePaymentRequest, now: Time)
      requires store.Valid()
      modifies store
      ensures store.Valid()
      ensures store.State() == Confirmed(old(store.State()), id, req, now)
    {
      if Present(req.seatId) {
        store.UpdateSeat(req.seatId.value, Reserve(now + HoldMillis, req.customerEmail));
      }
      store.Append(LogEntry(Info, "create_payment", Some(id)));
    }

    method UpdatePaymentStatus(chargeId: ChargeId, status: PaymentStatus)
      returns (r: Result<Payment, ServiceError>)
      requires store.Valid()
      modifies store
      ensures store.Valid()
      ensures var o := UpdateStatusOutcome(old(store.State()), chargeId, status);
              r == o.reply && store.State() == o.db
    {
      var found := store.FindByChargeId(chargeId);
      if found.None? {
        return Err(NotFound(PaymentNotFoundMsg));
      }
      var payment := found.value;
      Transition(payment, status);
      store.Append(LogEntry(Info, "update_status", Some(payment.id)));
      r := Ok(payment.(status := status));
    }

    /** The status write and the seat write shared by the status routine and
        the cancellation. */
    method Transition(p: Payment, status: PaymentStatus)
      requires store.Valid()
      requires p.id in store.State().payments && store.State().payments[p.id] == p
      modifies store
      ensures store.Valid()
      ensures store.State() == Transitioned(old(store.State()), p, status)
    {
      store.UpdateStatus(p.id, status);
      if p.seatId.Some? {
        var seat := store.FindSeat(p.seatId.value);
        if seat.Some? {
          store.UpdateSeat(p.seatId.value, SeatChangeFor(status));
        }
      }
    }

    method CancelPayment(id: PaymentId, gw: Gateway) returns (r: Result<Payment, ServiceError>)
      requires store.Valid()
      modifies store
      ensures store.Valid()
      ensures var o := CancelOutcome(old(store.State()), id, gw);
              r == o.reply && store.State() == o.db
    {
      var found := store.FindPayment(id);
      if found.None? {
        return Err(NotFound(PaymentNotFoundMsg));
      }
      var payment := found.value;
      if payment.status != Pending {
        return Err(Failure(OnlyPendingMsg));
      }
      if payment.chargeId != "" && !ReverseCharge(gw, payment.chargeId) {
        store.Append(LogEntry(Warn, "cancel_payment", Some(id)));
      }
      Transition(payment, Cancelled);
      store.Append(LogEntry(Info, "cancel_payment", Some(id)));
      r := Ok(payment.(status := Cancelled));
    }

    method ForceUpdatePaymentStatus(id: PaymentId, gw: Gateway) returns (r: Result<StatusReply, ServiceError>)
      requires store.Valid()
      modifies store
      ensures store.Valid()
      ensures var o := ForceUpdateOutcome(old(store.State()), id, gw);
              r == o.reply && store.State() == o.db
    {
      var found := store.FindPayment(id);
      if found.None? {
        return Err(NotFound(PaymentNotFoundMsg));
      }
      var payment := found.value;
      if payment.chargeId == "" {
        return Err(Failure(NoChargeIdMsg));
      }
      var report := Retrieve(gw, payment.chargeId);
      if report.None? {
        return Err(Failure(ForceUpdateFailedMsg));
      }
      var newStatus := StatusFromCharge(report.value);
      if payment.status != newStatus {
        var updated := UpdatePaymentStatus(payment.chargeId, newStatus);
        if updated.Err? {
          return Err(Failure(ForceUpdateFailedMsg));
        }
      }
      r := Ok(StatusReply(id, newStatus, payment.chargeId));
    }

    method GetPaymentStatus(id: PaymentId, gw: Gateway) returns (r: Result<StatusReply, ServiceError>)
      requires store.Valid()
      modifies store
      ensures store.Valid()
      ensures var o := GetStatusOutcome(old(store.State()), id, gw);
              r == o.reply && store.State() == o.db
    {
      var found := store.FindPayment(id);
      if found.None? {
        return Err(NotFound(PaymentNotFoundMsg));
      }
      var payment := found.value;
      r := Ok(StatusReply(id, payment.status, payment.chargeId));
      if ConsultsGateway(payment) {
        var report := Retrieve(gw, payment.chargeId);
        if report.Some? {
          if report.value.status == "successful" && report.value.paid {
            var updated := UpdatePaymentStatus(payment.chargeId, Paid);
            if updated.Ok? {
              r := Ok(StatusReply(id, Paid, payment.chargeId));
            }
          } else if report.value.status == "failed" {
            var updated := UpdatePaymentStatus(payment.chargeId, Failed);
            if updated.Ok? {
              r := Ok(StatusReply(id, Failed, payment.chargeId));
            }
          }
        }
      }
    }
  }
}
