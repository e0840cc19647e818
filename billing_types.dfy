/**
 * The vendor billing library as the plugin sees it: the constants it compares
 * against, the `BillingResult` every callback receives, the records shared by the
 * ProductDetails-based versions of the plugin, and the result dictionary that
 * every synchronous command hands back to the script
 * (`status`, and on failure `response_code` and `debug_message`).
 */
module BillingTypes {
  import opened GodotValues

  /** `BillingClient.BillingResponseCode.OK`. */
  const OK: int := 0

  /** `BillingFlowParams.ProrationMode.UNKNOWN_SUBSCRIPTION_UPGRADE_DOWNGRADE_POLICY`. */
  const UNKNOWN_SUBSCRIPTION_UPGRADE_DOWNGRADE_POLICY: int := 0

  /** Status values of a result dictionary. */
  const STATUS_OK: int := 0
  const STATUS_FAILED: int := 1

  datatype BillingResult = BillingResult(responseCode: int, debugMessage: string)

  /** The accessors of a vendor `Purchase` that the ProductDetails-based converters call. */
  datatype Purchase = Purchase(
    originalJson: string,
    orderId: Option<string>,
    packageName: string,
    purchaseState: int,
    purchaseTime: int,
    purchaseToken: string,
    quantity: int,
    signature: string,
    products: seq<string>,
    isAcknowledged: bool,
    isAutoRenewing: bool)

  /** `ProductDetails.OneTimePurchaseOfferDetails`. */
  datatype OneTimePurchaseOfferDetails = OneTimePurchaseOfferDetails(
    formattedPrice: string,
    priceAmountMicros: int,
    priceCurrencyCode: string)

  /** `ProductDetails.PricingPhase`. */
  datatype PricingPhase = PricingPhase(
    billingCycleCount: int,
    billingPeriod: string,
    formattedPrice: string,
    priceAmountMicros: int,
    priceCurrencyCode: string,
    recurrenceMode: int)

  /** `BillingFlowParams.SubscriptionUpdateParams`: the purchase being replaced and how. */
  datatype SubscriptionUpdateParams = SubscriptionUpdateParams(oldPurchaseToken: string, prorationMode: int)

  /** What a script learns from a result dictionary. */
  datatype Outcome = Succeeded | Failed(responseCode: Option<int>, debugMessage: string)

  /**
   * The script-side reading of a result dictionary: `status` 0 is success;
   * `status` 1 must come with a `response_code` (an integer, or null when the
   * failure was detected locally) and a `debug_message`.
   */
  function ReadOutcome(v: Value): Option<Outcome>
  {
    var m :- AsDict(v);
    var status :- IntAt(m, "status");
    if status == STATUS_OK then Some(Succeeded)
    else if status == STATUS_FAILED then
      var code :- ValueAt(m, "response_code");
      var message :- StringAt(m, "debug_message");
      if code.Null? then Some(Failed(None, message))
      else if code.I? then Some(Failed(Some(code.i), message))
      else None
    else None
  }

  /** What a vendor response means for the script: only `OK` is success. */
  function OutcomeOf(r: BillingResult): Outcome
  {
    if r.responseCode == OK then Succeeded else Failed(Some(r.responseCode), r.debugMessage)
  }

  /** The keys of a failure dictionary. */
  const FailureKeys: set<string> := {"status", "response_code", "debug_message"}

  /**
   * The dictionary a command returns when a precondition it checks itself
   * fails: no vendor response code, only a fixed message.
   */
  function PreconditionFailure(message: string): (v: Value)
    ensures v.D? && v.entries.Keys == FailureKeys && v.entries["response_code"] == Null
    ensures ReadOutcome(v) == Some(Failed(None, message))
  {
    D(map["status" := I(STATUS_FAILED), "response_code" := Null, "debug_message" := S(message)])
  }

  /**
   * The dictionary a command returns for a vendor response: exactly
   * `{status: 0}` on OK, otherwise `status` 1 with the vendor's code and message.
   */
  function ResponseDictionary(r: BillingResult): (v: Value)
    ensures v.D? && v.entries.Keys == if r.responseCode == OK then {"status"} else FailureKeys
    ensures ReadOutcome(v) == Some(OutcomeOf(r))
  {
    if r.responseCode == OK then D(map["status" := I(STATUS_OK)])
    else D(map["status" := I(STATUS_FAILED),
               "response_code" := I(r.responseCode),
               "debug_message" := S(r.debugMessage)])
  }

  /**
   * The `query_purchases_response` dictionary: `status` 0 and the converted
   * purchases on OK, otherwise the failure triple; on failure nothing of the
   * purchase list is passed on.
   */
  function PurchasesQueryDictionary(r: BillingResult, purchases: Value): (v: Value)
    ensures v.D? && v.entries.Keys == if r.responseCode == OK then {"status", "purchases"} else FailureKeys
    ensures r.responseCode == OK ==> v.entries["purchases"] == purchases
    ensures ReadOutcome(v) == Some(OutcomeOf(r))
  {
    if r.responseCode == OK then D(map["status" := I(STATUS_OK), "purchases" := purchases])
    else ResponseDictionary(r)
  }
}
