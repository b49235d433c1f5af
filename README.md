# Seat payments: the payment ↔ seat state machine

This project models the core of a ticketing back end that sells seats and takes payment for them through the Omise gateway. A payment row is `pending`, `paid`, `failed`, `cancelled` or `refunded`. A seat row is `available`, `reserved` or `occupied`, and a reserved seat has a deadline (`reserved_until`) and a holder (`reserved_by`). Several entry points move a payment and its seat:

- **Creating a payment** (`PaymentsService.createPayment`) checks the card fields, then that the seat exists and is free. It inserts a pending row, holds the seat for 15 minutes and logs the creation.
- **The shared status routine** (`updatePaymentStatus`) looks the payment up by its gateway charge id and writes the new status. For `paid` it occupies the seat and clears the deadline. For `failed` or `cancelled` it releases the seat. For `pending` or `refunded` it saves the seat unchanged.
- **Status refresh.** `getPaymentStatus` asks the gateway about a pending payment. `forceUpdatePaymentStatus` asks it unconditionally. Both go through the shared routine.
- **Cancellation** (`cancelPayment`) accepts only a pending payment. A failed gateway reversal is logged as a warning and the cancellation goes on.
- **The webhook controller** (`OmiseWebhookController`) checks an HMAC signature. It then handles `charge.complete`, `charge.failed` and `charge.cancel` with direct table writes, and does not look at the current status.
- **The webhook service** (`WebhookService`) has an optional signature gate. It maps event keys to statuses and applies them through the shared routine; every error is logged and rethrown.
- **The expiry sweep** (`CleanupController`) selects the pending payments older than 15 minutes. For each one it cancels the gateway charge, marks the payment cancelled, releases the seat and logs the expiry.
- **The error mapper and the create endpoint** (`ErrorMapper.toUserFacingError`, `PaymentsController.createPayment`) turn a thrown error into one of seven codes and an HTTP status.

## Structure

The model has two layers:

- **Pure layer.** The database is the value `Repository.Db`: the payments table with its unique charge-id index, the seats table, the id generator and the payment log. Each operation is a function from a `Db` to an `Outcome`, which pairs the reply with the database the operation leaves. These functions carry the contracts, and the lemmas relate them to one another.
- **Imperative layer.** `Repository.Store` is the mutable object the services share. It has one method per kind of repository write. The service classes (`Payments.PaymentsService`, `OmiseWebhook.OmiseWebhookController`, `WebhookEvents.WebhookService`, `Cleanup.CleanupController`) perform the source's writes in the source's order on the store. Each of their methods is proved to leave exactly the `Db` its specification function computes, and to return the same reply.

The gateway is the value `Omise.Gateway`, an oracle: it gives the charge reports and the set of charges whose cancellation or reversal throws. The clock reading, the mock charge id, the body serialiser and the HMAC digest are parameters.

Invariant `Repository.ValidDb`:

- every row is stored under its own id, and every id is below the id generator;
- the charge-id index is a bijection with the payments;
- every seat a payment names exists;
- an available seat carries no reservation;
- a reserved seat has a deadline.

Every operation preserves this invariant. The seat shape is assumed of the seats the store starts with (see "Left out").

## Model

Each row names a member, the source lines it models, and what its contract states.

| member | source | states |
|---|---|---|
| Entities.StatusNamesDistinct | application/payment-service/src/database/entities/payment.entity.ts:12-18 | the five stored status names tell the statuses apart |
| Entities.MethodNamesDistinct | application/payment-service/src/database/entities/payment.entity.ts:20-31 | the ten stored payment-method names tell the methods apart |
| Entities.CurrencyOrDefault | application/payment-service/src/payments/payments.service.ts:96-97 | a missing or empty currency becomes THB; any other is kept; the result is never empty |
| Entities.NewPayment | application/payment-service/src/database/entities/payment.entity.ts:47-52 | a new row is pending and carries exactly the fields given at creation |
| Entities.ApplyChange | application/payment-service/src/payments/payments.service.ts:374-386 | each seat write sets exactly the fields the services write; the seat keeps its id and a sound seat stays sound |
| Repository.FindByCharge | application/payment-service/src/database/entities/payment.entity.ts:38-39 | a lookup by charge id finds the row with that charge id, or none when no row has it |
| Repository.ChargeIdIsUnique | application/payment-service/src/database/entities/payment.entity.ts:38-39 | two rows with the same charge id are the same row |
| Repository.ConstraintError | application/payment-service/src/database/entities/payment.entity.ts:38-70 | an insert is refused iff the seat id is "", a value does not fit its column (charge id and email at most 255 characters, amount below 10^8 in magnitude, currency at most 3 characters) or the charge id is taken; "" gives the uuid error, an oversized amount the numeric overflow, a taken id the duplicate-key error |
| Repository.Inserted | application/payment-service/src/payments/payments.service.ts:218-239 | the insert succeeds iff no constraint is broken; a refused insert fails with the first broken constraint's error and changes nothing; on success the new pending row gets the next id and is indexed by its charge id |
| Repository.Store.Insert | application/payment-service/src/payments/payments.service.ts:218-239 | the store's insert returns and writes what `Inserted` does |
| Repository.Store.UpdateStatus | application/payment-service/src/payments/cleanup.controller.ts:141-146 | an update by id writes only that row's status |
| Repository.Store.UpdateSeat | application/payment-service/src/payments/cleanup.controller.ts:151-158 | an update of a seat by id writes only that seat |
| Repository.Store.Append | application/payment-service/src/payments/cleanup.controller.ts:163-183 | a log write appends one entry and changes nothing else |
| Omise.Retrieve | application/payment-service/src/payments/payments.service.ts:473-474 | a retrieval returns the gateway's report for a known charge and fails for any other |
| Omise.CancelCharge | application/payment-service/src/omise/omise.service.ts:33-59 | a cancellation succeeds for a mock charge id without asking the gateway, and otherwise unless the gateway refuses it |
| Omise.ReverseCharge | application/payment-service/src/payments/payments.service.ts:417-420 | a reversal goes to the gateway with no mock shortcut and succeeds unless the gateway refuses it |
| Omise.MockChargesCancel | application/payment-service/src/omise/omise.service.ts:33-59 | a charge id with the mock prefix is always cancelled without asking the gateway |
| Payments.CreateAccepted | application/payment-service/src/payments/payments.service.ts:50-88 | everything creation checks before it succeeds, in order: the card fields, the seat's existence and availability, then the insert's column and uniqueness constraints |
| Payments.CardComplete | application/payment-service/src/payments/payments.service.ts:50-55 | all five card fields are present and non-empty |
| Payments.CardAccepted | application/payment-service/src/payments/payments.service.ts:50-55 | only a card payment needs the card fields |
| Payments.SeatChangeFor | application/payment-service/src/payments/payments.service.ts:374-386 | paid occupies the seat, failed and cancelled release it, pending and refunded keep it |
| Payments.StatusApplied | application/payment-service/src/payments/payments.service.ts:370-386 | the effect of the shared routine that every status write is stated against: the row gets the new status, its seat follows the status (paid occupies and clears the deadline, failed/cancelled release, pending/refunded keep), and nothing else in the two tables changes |
| Payments.Transitioned | application/payment-service/src/payments/payments.service.ts:370-387 | the two writes of the shared routine: the status, then the seat as the status demands (paid occupies and clears the deadline, failed/cancelled release, pending/refunded keep); nothing else changes |
| Payments.KeepingStatusLeavesSeats | application/payment-service/src/payments/payments.service.ts:374-386 | a move to pending or refunded leaves the whole seats table as it was |
| Payments.CreateOutcome | application/payment-service/src/payments/payments.service.ts:32-288 | creation succeeds iff the card, the seat's existence and availability and the table constraints all pass; each check has its error, and a refused insert rethrows the constraint error; every failure only logs the error; success inserts the pending row, holds the seat for 15 minutes for the customer and logs the creation |
| Payments.BookOutcome | application/payment-service/src/payments/payments.service.ts:218-257 | after the checks: success iff the insert's constraints pass; then the row, the seat hold and the success entry are exactly as stated; a failure rethrows the constraint error and only logs |
| Payments.Confirmed | application/payment-service/src/payments/payments.service.ts:241-257 | after the insert, only the named seat is reserved until now + 15 min for the customer, and one success entry is logged |
| Payments.PaymentsService.CreatePayment | application/payment-service/src/payments/payments.service.ts:32-288 | the method returns and writes what `CreateOutcome` does |
| Payments.PaymentsService.Book | application/payment-service/src/payments/payments.service.ts:218-257 | the method returns and writes what `BookOutcome` does |
| Payments.PaymentsService.Confirm | application/payment-service/src/payments/payments.service.ts:241-257 | the method writes what `Confirmed` does |
| Payments.UpdateStatusOutcome | application/payment-service/src/payments/payments.service.ts:357-400 | fails with not-found iff no row has the charge id, changing nothing; otherwise the status and seat change as the routine demands, the update is logged and the updated row is returned |
| Payments.PaymentsService.UpdatePaymentStatus | application/payment-service/src/payments/payments.service.ts:357-400 | the method returns and writes what `UpdateStatusOutcome` does |
| Payments.PaymentsService.Transition | application/payment-service/src/payments/payments.service.ts:370-387 | the method writes what `Transitioned` does |
| Payments.CancelEntries | application/payment-service/src/payments/payments.service.ts:416-454 | cancellation logs a warning first iff the payment has a charge id whose reversal fails, then always the cancellation |
| Payments.CancelOutcome | application/payment-service/src/payments/payments.service.ts:402-457 | succeeds iff the payment exists and is pending; an unknown id or a non-pending payment changes nothing; success cancels the payment, releases its seat and logs the entries |
| Payments.PaymentsService.CancelPayment | application/payment-service/src/payments/payments.service.ts:402-457 | the method returns and writes what `CancelOutcome` does |
| Payments.StatusFromCharge | application/payment-service/src/payments/payments.service.ts:476-483 | paid iff the charge is successful and paid, failed iff the charge failed, pending otherwise |
| Payments.ForceUpdateOutcome | application/payment-service/src/payments/payments.service.ts:459-499 | not found, no charge id and a failed retrieval each fail and change nothing; otherwise the status the charge stands for is returned; it is applied through the shared routine only when it differs from the stored one |
| Payments.PaymentsService.ForceUpdatePaymentStatus | application/payment-service/src/payments/payments.service.ts:459-499 | the method returns and writes what `ForceUpdateOutcome` does |
| Payments.ConsultsGateway | application/payment-service/src/payments/payments.service.ts:321 | the gateway is asked only about a pending payment with a charge id |
| Payments.GetStatusOutcome | application/payment-service/src/payments/payments.service.ts:310-355 | unknown ids fail; otherwise the reply always succeeds; the gateway is consulted only for a pending payment with a charge id; a paid or failed charge is applied through the shared routine; anything else returns the local status and changes nothing |
| Payments.PaymentsService.GetPaymentStatus | application/payment-service/src/payments/payments.service.ts:310-355 | the method returns and writes what `GetStatusOutcome` does |
| Payments.SourceType | application/payment-service/src/payments/payments.service.ts:153-196 | a card has no source type; each other method has its gateway source name |
| Payments.SourceTypeInjective | application/payment-service/src/payments/payments.service.ts:153-196 | two methods charged through the same source are the same method |
| Payments.Offer | application/payment-service/src/payments/payments.service.ts:502-626 | the catalogue entry of each method carries its stored name and is enabled |
| Payments.Subsequence | application/payment-service/src/payments/payments.service.ts:629 | the reference for `filter`: entries dropped, the rest kept in order |
| Payments.EnabledOnly | application/payment-service/src/payments/payments.service.ts:629 | the filter's result is an order-preserving subsequence of its input whose entries are all enabled and which holds every enabled entry; it is the whole list when all are enabled |
| Payments.EnabledOnlyCounts | application/payment-service/src/payments/payments.service.ts:629 | the filter keeps every copy of an enabled entry and no copy of a disabled one, so with the subsequence property its result is exactly the input's enabled entries in order |
| Payments.GetPaymentMethods | application/payment-service/src/payments/payments.service.ts:501-632 | the reply is the whole catalogue, in its order, with card as the default method |
| Payments.EveryMethodOffered | application/payment-service/src/payments/payments.service.ts:502-626 | every payment method appears in the reply under its stored name |
| OmiseWebhook.VerifyWebhookSignature | application/payment-service/src/webhooks/omise-webhook.controller.ts:56-75 | with no secret every request passes; with one, it passes iff the header equals the digest of the body under the secret |
| OmiseWebhook.DispatchStatus | application/payment-service/src/webhooks/omise-webhook.controller.ts:80-98 | complete → paid, failed → failed, cancel → cancelled; every other event type is ignored |
| OmiseWebhook.ChargeOutcome | application/payment-service/src/webhooks/omise-webhook.controller.ts:103-234 | an unknown charge changes nothing; otherwise the status is written whatever it was; completion marks the seat occupied and keeps its hold fields; failure or cancellation release it; the action is logged; a payment without a seat fails after the status write |
| OmiseWebhook.SeatMarked | application/payment-service/src/webhooks/omise-webhook.controller.ts:118-136 | the three writes of a handler for a payment with a seat: status, seat, one log entry; nothing else changes |
| OmiseWebhook.HandleWebhookOutcome | application/payment-service/src/webhooks/omise-webhook.controller.ts:29-51 | rejected iff the signature fails, changing nothing; an ignored event changes nothing; a handled event without data fails with no writes; a handled event otherwise has its handler's writes and fails iff the handler does |
| OmiseWebhook.OmiseWebhookController.HandleCharge | application/payment-service/src/webhooks/omise-webhook.controller.ts:103-234 | the method returns and writes what `ChargeOutcome` does |
| OmiseWebhook.OmiseWebhookController.HandleOmiseWebhook | application/payment-service/src/webhooks/omise-webhook.controller.ts:29-51 | the method returns and writes what `HandleWebhookOutcome` does |
| Cleanup.IsExpired | application/payment-service/src/payments/cleanup.controller.ts:79-85 | the expiry query: pending and created more than 15 minutes before now |
| Cleanup.SelectsExpired | application/payment-service/src/payments/cleanup.controller.ts:78-87 | a selection holds exactly the expired rows of the table, each once, in any order |
| Cleanup.CancelAccepted | application/payment-service/src/payments/cleanup.controller.ts:96-99 | step 1 lets the rest run: a payment with no charge id skips the gateway, any other needs the cancellation to succeed |
| Cleanup.ExpiredProcessed | application/payment-service/src/payments/cleanup.controller.ts:92-117 | a refused cancellation only logs an error; otherwise the row is cancelled by id and its seat released; a payment without a seat logs an error after the status write; every path appends exactly one entry for the payment |
| Cleanup.Sweep | application/payment-service/src/payments/cleanup.controller.ts:64-66 | the loop keeps both tables' keys and the earlier log, and appends one entry per selected row |
| Cleanup.SweepLeavesOthers | application/payment-service/src/payments/cleanup.controller.ts:92-117 | a sweep leaves unchanged every payment it was not given and every selected payment whose gateway cancellation was refused, which stays pending |
| Cleanup.SweepLeavesOtherSeats | application/payment-service/src/payments/cleanup.controller.ts:64-66 | a sweep leaves unchanged every seat that no row with an accepted cancellation names |
| Cleanup.SweepLogsInOrder | application/payment-service/src/payments/cleanup.controller.ts:64-66 | the k-th new log entry belongs to the k-th selected row and is an expiry or an expiry error |
| Cleanup.SweepCancels | application/payment-service/src/payments/cleanup.controller.ts:101-102 | every selected row whose cancellation goes through ends cancelled, whatever its status was when it was reached |
| Cleanup.SweepReleases | application/payment-service/src/payments/cleanup.controller.ts:104-105 | the seat of every such row ends available with no reservation |
| Cleanup.CleanupController.FindExpiredPayments | application/payment-service/src/payments/cleanup.controller.ts:78-87 | the result holds exactly the pending rows created more than 15 minutes before now, each once |
| Cleanup.CleanupController.ProcessExpiredPayment | application/payment-service/src/payments/cleanup.controller.ts:92-117 | the method writes what `ExpiredProcessed` does |
| Cleanup.CleanupController.HandleExpiredPayments | application/payment-service/src/payments/cleanup.controller.ts:49-73 | the selected rows are exactly the expired ones; the new state is the sweep over them; an empty selection changes nothing |
| Cleanup.CleanupController.TriggerPaymentCleanup | application/payment-service/src/payments/cleanup.controller.ts:27-44 | the trigger reports success and leaves the state of a sweep over the expired rows |
| WebhookEvents.TargetStatus | payment-service/src/webhook/webhook.service.ts:57-107 | the status each event key (and, for charge.create, each charge status) maps to; exactly the five known keys are handled; no event maps to cancelled |
| WebhookEvents.SignatureRejected | payment-service/src/webhook/webhook.service.ts:21-28 | a request is rejected only when the header and the secret are both set and the header differs from the digest of the raw body |
| WebhookEvents.Rethrown | payment-service/src/webhook/webhook.service.ts:128-139 | the catch block logs one error entry and rethrows the same error |
| WebhookEvents.Applied | payment-service/src/webhook/webhook.service.ts:110-127 | an unknown charge is logged and rethrown as not found; a known one has its status applied through the shared routine and succeeds |
| WebhookEvents.HandleEventOutcome | payment-service/src/webhook/webhook.service.ts:14-140 | the signature is checked only when both header and secret are set; a missing `data` throws; unhandled events leave both tables unchanged; handled events apply the shared routine; every error ends with an error log entry |
| WebhookEvents.WebhookService.HandleOmiseWebhook | payment-service/src/webhook/webhook.service.ts:14-140 | the method returns and writes what `HandleEventOutcome` does |
| Errors.CodeNamesDistinct | payment-service/src/common/errors/error.mapper.ts:13-31 | the seven code names tell the codes apart |
| Text.Contains | payment-service/src/common/errors/error.mapper.ts:13-31 | `includes`: some suffix of the string starts with the pattern |
| Errors.OriginalMessage | payment-service/src/common/errors/error.mapper.ts:11 | the message of an `Error`, or the rendering of any other thrown value |
| Errors.AuthFailure | payment-service/src/common/errors/error.mapper.ts:13 | the gateway-auth test: the message contains "expired key" or "authentication failed" |
| Errors.MessageFor | payment-service/src/common/errors/error.mapper.ts:13-31 | the user-facing message each code carries |
| Errors.ToUserFacingError | payment-service/src/common/errors/error.mapper.ts:8-34 | the original message is kept, the message goes with the code, and each code is chosen iff its pattern matches and no earlier pattern does |
| Errors.FirstMatch | payment-service/src/common/errors/error.mapper.ts:13-31 | the result is the default or the code of some rule, and the default when no rule matches |
| Errors.MapperFollowsRules | payment-service/src/common/errors/error.mapper.ts:13-31 | the mapper's if-chain picks the code of the first matching rule of the ordered table |
| Http.HttpStatusFor | payment-service/src/payments/payments.controller.ts:18-26 | 400 iff a seat code, 503 iff the unavailable code, 402 iff a payment code, 500 otherwise |
| Http.BodyFor | payment-service/src/payments/payments.controller.ts:28-35 | a missing or empty message or code takes its default; a missing or empty original error becomes null |
| Http.CreatePaymentEndpoint | payment-service/src/payments/payments.controller.ts:12-37 | a success passes through; a failure becomes an exception with the status and body above |
| Http.MappedErrorStatus | payment-service/src/payments/payments.controller.ts:18-26 | every mapped error reaches the status its code's group is meant to have |
| Http.OnlyDefaultIsServerError | payment-service/src/payments/payments.controller.ts:18-26 | of the seven codes only the default one becomes a 500 |
| Scenarios.ReserveThenPayByWebhook | application/payment-service/src/webhooks/omise-webhook.controller.ts:118-128 | a created payment completed by the webhook is paid, and its seat is occupied but keeps the hold's deadline and holder |
| Scenarios.ReserveThenPayByStatusRoutine | application/payment-service/src/payments/payments.service.ts:374-377 | completed through the shared routine, the seat is occupied with no deadline |
| Scenarios.SweepSelectsLapsedHolds | application/payment-service/src/payments/cleanup.controller.ts:78-86 | the sweep selects a created payment exactly when the hold placed on its seat has run out |
| Scenarios.ReserveThenExpire | application/payment-service/src/payments/cleanup.controller.ts:92-117 | a mock-charged payment left unpaid past its hold is cancelled by the sweep and its seat freed |
| Scenarios.LateFailureUndoesPayment | application/payment-service/src/webhooks/omise-webhook.controller.ts:148-189 | a failure event after a completion turns the paid payment into a failed one and frees its seat |
| Scenarios.SweepOverridesPayment | application/payment-service/src/payments/cleanup.controller.ts:141-146 | a payment completed after the sweep selected it is still cancelled and its seat freed |
| Scenarios.ForceUpdateRevertsPayment | application/payment-service/src/payments/payments.service.ts:476-488 | a forced update with a still-pending charge moves a paid payment back to pending and leaves the seats alone |
| Scenarios.SeatNotFoundVerdict | payment-service/src/common/errors/error.mapper.ts:13-18 | any message containing "Seat not found" and neither gateway-auth pattern maps to the seat-not-found code |
| Scenarios.SeatNotAvailableVerdict | payment-service/src/common/errors/error.mapper.ts:13-21 | any message containing "Seat is not available" and none of the earlier patterns maps to the seat-not-available code |
| Scenarios.UuidVerdict | payment-service/src/common/errors/error.mapper.ts:13-24 | any message containing the uuid syntax error and none of the earlier patterns maps to the invalid-seat code |
| Scenarios.SeatNotFoundCode | payment-service/src/common/errors/error.mapper.ts:16-18 | the literal message "Seat not found" maps to the seat-not-found code through the mapper |
| Scenarios.SeatNotAvailableCode | payment-service/src/common/errors/error.mapper.ts:19-21 | the literal message "Seat is not available" maps to its own code through the mapper, not to the seat-not-found one |
| Scenarios.UuidErrorCode | payment-service/src/common/errors/error.mapper.ts:22-24 | the literal uuid syntax message, which the insert fails with for an empty seat id, maps to the invalid-seat code through the mapper |
| Scenarios.SeatErrorsAreBadRequests | payment-service/src/payments/payments.controller.ts:18-21 | the three literal seat messages ("Seat not found", "Seat is not available", the uuid syntax error) become status 400 through the mapper and the payment-service create endpoint |

## Left out

- Transport and frameworks: HTTP routing, NestJS decorators, the scheduler that fires the sweep every minute, and `console` or `Logger` output are not modelled.
- The clock is a parameter `now`. `updated_at` columns are not modelled.
- The mock charge id is a parameter to creation. The source builds it from `Date.now()`.
- The HMAC-SHA256 digest, the JSON serialisation of the webhook body and the raw-body handling are parameters (`hmac`, `body`, `rawBody`).
- An exception thrown while the signature itself is computed is not modelled.
- Concurrency is not modelled. Every call runs to completion before the next one starts, and there are no transactions. `SweepOverridesPayment` shows one interleaving: a status written between selection and processing.
- The real-gateway branch of creation is not modelled. Mock mode is a constant `true` in the source, so that branch is dead code. The same holds for token creation, card tokenisation, source creation, the display fields, the QR and authorise URLs, and charge metadata.
- The amount is an integer. The source rounds it with `Math.round` for the gateway charge only; that rounding and fractional amounts are not modelled.
- Display strings of the payment-method catalogue (names, descriptions, icons) are not modelled. Each entry keeps its id, kind and enabled flag.
- `getPayment` and `getPayments` are read-only listings and are not part of this model.
- The `updatePaymentStatus` that the payment-service `PaymentsService` calls from the webhook service is not part of this model. `WebhookEvents` uses the application's shared routine in its place.
- Repository failures other than the insert constraints are not modelled: no lost connection and no failing update. As a result, `TriggerPaymentCleanup` never reaches its error reply, and `HandleExpiredPayments`'s catch-and-rethrow is not reached.
- Repository.Inserted: of the malformed seat ids it refuses only `""`, which skips the seat lookup because it is falsy. A non-empty id that is not a uuid is modelled like any unknown seat id ("Seat not found"); the database's own uuid syntax error at that lookup is not modelled.
- Repository.ConstraintError: when several constraints fail at once, the model reports the first in a fixed order: the uuid parse, then the columns in table order, then the unique index. Which one the database reports is not pinned to a particular version. Amounts with fractional digits are not modelled.
- A webhook `data` object without an `id` is not modelled: `ChargeData.id` and `WebhookPayload.data` always carry a charge id when present. In the source such an event looks the payment up with an undefined charge id, and what that lookup matches depends on the ORM version.
- Repository.Store.constructor: it requires every initial seat to have a sound shape (an available seat carries no reservation, a reserved seat has a deadline). The seat rows are written by code outside this model, and the source never checks this; the invariant `ValidDb`, and what reserving a seat promises about `reserved_by`, rest on it.
- Log entries keep only the level, the action and the payment id. Message text, details, charge id and status columns are not modelled.
- The error mapper and the endpoint are modelled on any thrown message. The link from the payment-service `createPayment` to the mapper is not modelled. The application's own payments controller does not map errors: there "Seat not found" is a not-found exception (HTTP 404) and "Seat is not available" a plain error (HTTP 500). The `Scenarios` lemmas about the three seat messages speak only of the mapper and the payment-service endpoint.
- Where the seat update has no criteria because a payment names no seat, it is modelled as a thrown error after the status write. This applies to the webhook handlers and to the sweep's `releaseSeat`.
