/** The payment gateway, seen from the service: an oracle that answers charge
    retrievals and may refuse cancellations and reversals. Nothing here talks
    to the network; every answer is part of the `Gateway` value. */
module Omise {
  import opened Entities
  import opened Text

  /** What a charge retrieval reports: the charge's status and its paid flag. */
  datatype ChargeReport = ChargeReport(status: string, paid: bool)

  /** `charges` holds the charges the gateway can return (retrieving any other
      id throws); `cancelFails` and `reverseFails` are the charges whose
      cancellation or reversal throws. */
  datatype Gateway = Gateway(
    charges: map<ChargeId, ChargeReport>,
    cancelFails: set<ChargeId>,
    reverseFails: set<ChargeId>)

  /** Prefix of the charge ids the service's mock mode creates. */
  const MockChargePrefix: string := "mock_charge_"

  /** `charges.retrieve(id)`; `None` stands for a thrown error. */
  function Retrieve(gw: Gateway, chargeId: ChargeId): (r: Option<ChargeReport>)
    ensures r.Some? <==> chargeId in gw.charges
    ensures r.Some? ==> r.value == gw.charges[chargeId]
  {
    if chargeId in gw.charges then Some(gw.charges[chargeId]) else None
  }

  /** `OmiseService.cancelCharge`: a mock charge is cancelled without asking
      the gateway, any other succeeds unless the gateway refuses it. */
  predicate CancelCharge(gw: Gateway, chargeId: ChargeId)
  {
    StartsWith(chargeId, MockChargePrefix) || chargeId !in gw.cancelFails
  }

  /** `charges.reverse(id)` on the raw client, with no mock short-cut. */
  predicate ReverseCharge(gw: Gateway, chargeId: ChargeId)
  {
    chargeId !in gw.reverseFails
  }

  /** A mock charge can always be cancelled, whatever the gateway says. */
  lemma MockChargesCancel(gw: Gateway, suffix: string)
    ensures CancelCharge(gw, MockChargePrefix + suffix)
  {
    assert (MockChargePrefix + suffix)[..|MockChargePrefix|] == MockChargePrefix;
  }
}
