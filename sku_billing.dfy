/**
 * The SkuDetails-based billing adapter (`GodotGooglePlayBilling.kt`).
 *
 * Like the ProductDetails adapter it caches what the store returned (here
 * `SkuDetails`, keyed by sku) and gates purchases on the cache. It declares
 * the two obfuscated ids too, but has no setter for them, so they stay
 * empty. It also gates `confirmPriceChange` on the cache, and it has no
 * connection flag: `billing_resume` is emitted on every resume.
 * Each modelled vendor callback is a method taking the vendor's answer as
 * parameters; the sku query also has a request method that logs the query.
 * Signals and launched flows are ghost logs.
 * A Kotlin exception inside a callback (a `!!` on a null list, a purchase
 * without skus) ends the callback before it emits anything.
 */
module SkuBilling {
  import opened GodotValues
  import opened BillingTypes
  import opened DetailsCache
  import opened SkuBillingUtils

  /** The signals the adapter emits, with their arguments. */
  datatype Signal =
    | Connected
    | ConnectError(responseCode: int, debugMessage: string)
    | Disconnected
    | BillingResume
    | PurchasesUpdated(purchases: Value)
    | PurchaseError(responseCode: int, debugMessage: string)
    | QueryPurchasesResponse(response: Value)
    | SkuDetailsQueryCompleted(skuDetails: Value)
    | SkuDetailsQueryError(responseCode: int, debugMessage: string, requested: seq<string>)
    | PriceChangeAcknowledged(responseCode: int)
    | PurchaseAcknowledged(purchaseToken: string)
    | PurchaseAcknowledgementError(responseCode: int, debugMessage: string, purchaseToken: string)
    | PurchaseConsumed(purchaseToken: string)
    | PurchaseConsumptionError(responseCode: int, debugMessage: string, purchaseToken: string)

  /** `SkuDetailsParams`: the requested skus and their type. */
  datatype SkuDetailsParams = SkuDetailsParams(skusList: seq<string>, skuType: string)

  /** `PriceChangeFlowParams`. */
  datatype PriceChangeFlowParams = PriceChangeFlowParams(skuDetails: SkuDetails)

  /** `BillingFlowParams`, with `None` for every setter the builder was not given. */
  datatype BillingFlowParams = BillingFlowParams(
    skuDetails: SkuDetails,
    obfuscatedAccountId: Option<string>,
    obfuscatedProfileId: Option<string>,
    subscriptionUpdateParams: Option<SubscriptionUpdateParams>)

  const PurchaseBeforeQueryMessage: string :=
    "You must query the sku details and wait for the result before purchasing!"

  const PriceChangeBeforeQueryMessage: string :=
    "You must query the sku details and wait for the result before confirming a price change!"

  /** The cache key of a sku record: its sku. */
  function SkuOf(details: SkuDetails): string
  {
    details.sku
  }

  /**
   * The rules `purchaseInternal` follows when it builds the flow for `details`:
   * the details themselves; each obfuscated id only when it is non-empty;
   * subscription-update params only when there is an old token and the
   * proration mode is not UNKNOWN. The rules fix every field of the flow.
   */
  ghost predicate FlowRules(
    params: BillingFlowParams, details: SkuDetails,
    accountId: string, profileId: string, oldToken: string, prorationMode: int)
  {
    && params.skuDetails == details
    && (params.obfuscatedAccountId.Some? <==> accountId != "")
    && (params.obfuscatedAccountId.Some? ==> params.obfuscatedAccountId.value == accountId)
    && (params.obfuscatedProfileId.Some? <==> profileId != "")
    && (params.obfuscatedProfileId.Some? ==> params.obfuscatedProfileId.value == profileId)
    && (params.subscriptionUpdateParams.Some? <==>
          oldToken != "" && prorationMode != UNKNOWN_SUBSCRIPTION_UPGRADE_DOWNGRADE_POLICY)
    && (params.subscriptionUpdateParams.Some? ==>
          params.subscriptionUpdateParams.value == SubscriptionUpdateParams(oldToken, prorationMode))
  }

  /** The builder steps of `purchaseInternal`. */
  method BuildBillingFlowParams(
    details: SkuDetails, accountId: string, profileId: string, oldToken: string, prorationMode: int)
    returns (params: BillingFlowParams)
    ensures FlowRules(params, details, accountId, profileId, oldToken, prorationMode)
  {
    params := BillingFlowParams(details, None, None, None);
    if accountId != "" {
      params := params.(obfuscatedAccountId := Some(accountId));
    }
    if profileId != "" {
      params := params.(obfuscatedProfileId := Some(profileId));
    }
    if oldToken != "" && prorationMode != UNKNOWN_SUBSCRIPTION_UPGRADE_DOWNGRADE_POLICY {
      params := params.(subscriptionUpdateParams := Some(SubscriptionUpdateParams(oldToken, prorationMode)));
    }
  }

  class GodotGooglePlayBilling {
    /** Sku to the last details the store returned for it. */
    var skuDetailsCache: map<string, SkuDetails>
    var obfuscatedAccountId: string
    var obfuscatedProfileId: string

    /** Every signal emitted so far, oldest first. */
    ghost var signals: seq<Signal>
    /** Every purchase flow handed to `launchBillingFlow`, oldest first. */
    ghost var launchedFlows: seq<BillingFlowParams>
    /** Every flow handed to `launchPriceChangeConfirmationFlow`, oldest first. */
    ghost var priceChangeFlows: seq<PriceChangeFlowParams>
    /** Every request handed to `querySkuDetailsAsync`, oldest first. */
    ghost var skuQueries: seq<SkuDetailsParams>

    /**
     * Every cached record is stored under its own sku, and the obfuscated ids
     * are still empty: the adapter declares them but nothing assigns them.
     */
    ghost predicate Valid()
      reads this`skuDetailsCache, this`obfuscatedAccountId, this`obfuscatedProfileId
    {
      && (forall sku :: sku in skuDetailsCache ==> skuDetailsCache[sku].sku == sku)
      && obfuscatedAccountId == ""
      && obfuscatedProfileId == ""
    }

    constructor()
      ensures Valid()
      ensures skuDetailsCache == map[]
      ensures obfuscatedAccountId == "" && obfuscatedProfileId == ""
      ensures signals == [] && launchedFlows == [] && priceChangeFlows == [] && skuQueries == []
    {
      skuDetailsCache := map[];
      obfuscatedAccountId := "";
      obfuscatedProfileId := "";
      signals := [];
      launchedFlows := [];
      priceChangeFlows := [];
      skuQueries := [];
    }

    /**
     * The `queryPurchasesAsync` callback. On OK the purchases are converted
     * first; when that throws (a purchase without skus) nothing is emitted.
     */
    method OnQueryPurchasesResponse(billingResult: BillingResult, purchaseList: seq<SkuBillingUtils.Purchase>)
      modifies this`signals
      ensures billingResult.responseCode == OK && PurchaseListValue(purchaseList).Some? ==>
        signals == old(signals) + [QueryPurchasesResponse(
          PurchasesQueryDictionary(billingResult, PurchaseListValue(purchaseList).value))]
      ensures billingResult.responseCode == OK && PurchaseListValue(purchaseList).None? ==>
        signals == old(signals)
      ensures billingResult.responseCode != OK ==>
        signals == old(signals) + [QueryPurchasesResponse(ResponseDictionary(billingResult))]
    {
      if billingResult.responseCode == OK {
        var purchases := ConvertPurchaseListToDictionaryObjectArray(purchaseList);
        if purchases.None? {
          return;
        }
        var returnValue := D(map["status" := I(STATUS_OK), "purchases" := Arr(purchases.value[..])]);
        signals := signals + [QueryPurchasesResponse(returnValue)];
      } else {
        var returnValue := D(map["status" := I(STATUS_FAILED),
                                 "response_code" := I(billingResult.responseCode),
                                 "debug_message" := S(billingResult.debugMessage)]);
        signals := signals + [QueryPurchasesResponse(returnValue)];
      }
    }

    /** `querySkuDetails`: the request for exactly the given skus, in order, of the given type. */
    method QuerySkuDetails(list: seq<string>, skuType: string)
      modifies this`skuQueries
      ensures skuQueries == old(skuQueries) + [SkuDetailsParams(list, skuType)]
    {
      skuQueries := skuQueries + [SkuDetailsParams(list, skuType)];
    }

    /** The loop of the query callback: one `put` per returned record, in list order. */
    method CacheSkuDetails(skuDetailsList: seq<SkuDetails>)
      requires Valid()
      modifies this`skuDetailsCache
      ensures Valid()
      ensures skuDetailsCache == PutAll(old(skuDetailsCache), skuDetailsList, SkuOf)
    {
      for i := 0 to |skuDetailsList|
        invariant skuDetailsCache == PutAll(old(skuDetailsCache), skuDetailsList[..i], SkuOf)
      {
        assert skuDetailsList[..i + 1][..i] == skuDetailsList[..i];
        skuDetailsCache := skuDetailsCache[skuDetailsList[i].sku := skuDetailsList[i]];
      }
      assert skuDetailsList[..|skuDetailsList|] == skuDetailsList;
      PutAllKeyed(old(skuDetailsCache), skuDetailsList, SkuOf);
    }

    /**
     * The `querySkuDetailsAsync` callback for the request for `list`. On OK
     * every returned record is put into the cache under its sku, in list order,
     * and the converted list is emitted; a null list on OK throws before
     * anything happens. Otherwise the cache is untouched and the error is
     * emitted with the requested skus.
     */
    method OnSkuDetailsResponse(list: seq<string>, billingResult: BillingResult, skuDetailsList: Option<seq<SkuDetails>>)
      requires Valid()
      modifies this`skuDetailsCache, this`signals
      ensures Valid()
      ensures billingResult.responseCode == OK && skuDetailsList.Some? ==>
        && skuDetailsCache == PutAll(old(skuDetailsCache), skuDetailsList.value, SkuOf)
        && signals == old(signals) + [SkuDetailsQueryCompleted(ArrayOf(skuDetailsList.value, ConvertSkuDetailsToDictionary))]
      ensures billingResult.responseCode == OK && skuDetailsList.None? ==>
        skuDetailsCache == old(skuDetailsCache) && signals == old(signals)
      ensures billingResult.responseCode != OK ==>
        && skuDetailsCache == old(skuDetailsCache)
        && signals == old(signals) + [SkuDetailsQueryError(billingResult.responseCode, billingResult.debugMessage, list)]
    {
      if billingResult.responseCode == OK {
        if skuDetailsList.None? {
          return;
        }
        CacheSkuDetails(skuDetailsList.value);
        var objects := ConvertSkuDetailsListToDictionaryObjectArray(skuDetailsList.value);
        assert Arr(objects[..]) == ArrayOf(skuDetailsList.value, ConvertSkuDetailsToDictionary);
        signals := signals + [SkuDetailsQueryCompleted(Arr(objects[..]))];
      } else {
        signals := signals + [SkuDetailsQueryError(billingResult.responseCode, billingResult.debugMessage, list)];
      }
    }

    /** The `acknowledgePurchase` callback, reporting the token that was acknowledged. */
    method OnAcknowledgePurchaseResponse(purchaseToken: string, billingResult: BillingResult)
      modifies this`signals
      ensures signals == old(signals) + [
        if billingResult.responseCode == OK then PurchaseAcknowledged(purchaseToken)
        else PurchaseAcknowledgementError(billingResult.responseCode, billingResult.debugMessage, purchaseToken)]
    {
      if billingResult.responseCode == OK {
        signals := signals + [PurchaseAcknowledged(purchaseToken)];
      } else {
        signals := signals + [PurchaseAcknowledgementError(billingResult.responseCode, billingResult.debugMessage, purchaseToken)];
      }
    }

    /** The `consumeAsync` callback, reporting the token the vendor passes back. */
    method OnConsumeResponse(billingResult: BillingResult, token: string)
      modifies this`signals
      ensures signals == old(signals) + [
        if billingResult.responseCode == OK then PurchaseConsumed(token)
        else PurchaseConsumptionError(billingResult.responseCode, billingResult.debugMessage, token)]
    {
      if billingResult.responseCode == OK {
        signals := signals + [PurchaseConsumed(token)];
      } else {
        signals := signals + [PurchaseConsumptionError(billingResult.responseCode, billingResult.debugMessage, token)];
      }
    }

    method OnBillingSetupFinished(billingResult: BillingResult)
      modifies this`signals
      ensures signals == old(signals) + [
        if billingResult.responseCode == OK then Connected
        else ConnectError(billingResult.responseCode, billingResult.debugMessage)]
    {
      if billingResult.responseCode == OK {
        signals := signals + [Connected];
      } else {
        signals := signals + [ConnectError(billingResult.responseCode, billingResult.debugMessage)];
      }
    }

    method OnBillingServiceDisconnected()
      modifies this`signals
      ensures signals == old(signals) + [Disconnected]
    {
      signals := signals + [Disconnected];
    }

    /**
     * `confirmPriceChange`. Without cached details for the sku it fails
     * locally and launches nothing; otherwise it launches the price-change
     * flow for the cached details and always answers `{status: 0}`: the
     * outcome arrives later through `price_change_acknowledged`.
     */
    method ConfirmPriceChange(sku: string) returns (result: Value)
      requires Valid()
      modifies this`priceChangeFlows
      ensures sku !in skuDetailsCache ==>
        result == PreconditionFailure(PriceChangeBeforeQueryMessage) && priceChangeFlows == old(priceChangeFlows)
      ensures sku in skuDetailsCache ==>
        && result == D(map["status" := I(STATUS_OK)])
        && ReadOutcome(result) == Some(Succeeded)
        && priceChangeFlows == old(priceChangeFlows) + [PriceChangeFlowParams(skuDetailsCache[sku])]
        && skuDetailsCache[sku].sku == sku
    {
      if sku !in skuDetailsCache {
        return D(map["status" := I(STATUS_FAILED), "response_code" := Null,
                     "debug_message" := S(PriceChangeBeforeQueryMessage)]);
      }
      var skuDetails := skuDetailsCache[sku];
      priceChangeFlows := priceChangeFlows + [PriceChangeFlowParams(skuDetails)];
      result := D(map["status" := I(STATUS_OK)]);
    }

    /** `purchase`: a plain purchase, never a subscription update and never with obfuscated ids. */
    method Purchase(sku: string, launchResult: BillingResult) returns (result: Value)
      requires Valid()
      modifies this`launchedFlows
      ensures sku !in skuDetailsCache ==>
        result == PreconditionFailure(PurchaseBeforeQueryMessage) && launchedFlows == old(launchedFlows)
      ensures sku in skuDetailsCache ==>
        && result == ResponseDictionary(launchResult)
        && |launchedFlows| == |old(launchedFlows)| + 1
        && launchedFlows[..|old(launchedFlows)|] == old(launchedFlows)
        && FlowRules(launchedFlows[|launchedFlows| - 1], skuDetailsCache[sku],
                     obfuscatedAccountId, obfuscatedProfileId, "", UNKNOWN_SUBSCRIPTION_UPGRADE_DOWNGRADE_POLICY)
        && launchedFlows[|launchedFlows| - 1].subscriptionUpdateParams.None?
        && launchedFlows[|launchedFlows| - 1].obfuscatedAccountId.None?
        && launchedFlows[|launchedFlows| - 1].obfuscatedProfileId.None?
    {
      result := PurchaseInternal("", sku, UNKNOWN_SUBSCRIPTION_UPGRADE_DOWNGRADE_POLICY, launchResult);
    }

    /** `updateSubscription`: a purchase that replaces the purchase with `oldToken`. */
    method UpdateSubscription(oldToken: string, sku: string, prorationMode: int, launchResult: BillingResult)
      returns (result: Value)
      requires Valid()
      modifies this`launchedFlows
      ensures sku !in skuDetailsCache ==>
        result == PreconditionFailure(PurchaseBeforeQueryMessage) && launchedFlows == old(launchedFlows)
      ensures sku in skuDetailsCache ==>
        && result == ResponseDictionary(launchResult)
        && |launchedFlows| == |old(launchedFlows)| + 1
        && launchedFlows[..|old(launchedFlows)|] == old(launchedFlows)
        && FlowRules(launchedFlows[|launchedFlows| - 1], skuDetailsCache[sku],
                     obfuscatedAccountId, obfuscatedProfileId, oldToken, prorationMode)
        && launchedFlows[|launchedFlows| - 1].obfuscatedAccountId.None?
        && launchedFlows[|launchedFlows| - 1].obfuscatedProfileId.None?
    {
      result := PurchaseInternal(oldToken, sku, prorationMode, launchResult);
    }

    /**
     * `purchaseInternal`. Without cached details for the sku it fails locally,
     * launches nothing and changes nothing. Otherwise it launches one flow for
     * the cached details and reports the vendor's launch result.
     * `launchResult` is what `launchBillingFlow` returns.
     */
    method PurchaseInternal(oldToken: string, sku: string, prorationMode: int, launchResult: BillingResult)
      returns (result: Value)
      requires Valid()
      modifies this`launchedFlows
      ensures sku !in skuDetailsCache ==>
        result == PreconditionFailure(PurchaseBeforeQueryMessage) && launchedFlows == old(launchedFlows)
      ensures sku in skuDetailsCache ==>
        && result == ResponseDictionary(launchResult)
        && |launchedFlows| == |old(launchedFlows)| + 1
        && launchedFlows[..|old(launchedFlows)|] == old(launchedFlows)
        && FlowRules(launchedFlows[|launchedFlows| - 1], skuDetailsCache[sku],
                     obfuscatedAccountId, obfuscatedProfileId, oldToken, prorationMode)
        && launchedFlows[|launchedFlows| - 1].skuDetails.sku == sku
    {
      if sku !in skuDetailsCache {
        return D(map["status" := I(STATUS_FAILED), "response_code" := Null,
                     "debug_message" := S(PurchaseBeforeQueryMessage)]);
      }
      var skuDetails := skuDetailsCache[sku];
      var params := BuildBillingFlowParams(skuDetails, obfuscatedAccountId, obfuscatedProfileId, oldToken, prorationMode);
      launchedFlows := launchedFlows + [params];

      if launchResult.responseCode == OK {
        result := D(map["status" := I(STATUS_OK)]);
      } else {
        result := D(map["status" := I(STATUS_FAILED),
                        "response_code" := I(launchResult.responseCode),
                        "debug_message" := S(launchResult.debugMessage)]);
      }
    }

    /**
     * `onPurchasesUpdated`: with OK and a list, the converted purchases, or
     * nothing when converting them throws; otherwise the error.
     */
    method OnPurchasesUpdated(billingResult: BillingResult, list: Option<seq<SkuBillingUtils.Purchase>>)
      modifies this`signals
      ensures billingResult.responseCode == OK && list.Some? && PurchaseListValue(list.value).Some? ==>
        signals == old(signals) + [PurchasesUpdated(PurchaseListValue(list.value).value)]
      ensures billingResult.responseCode == OK && list.Some? && PurchaseListValue(list.value).None? ==>
        signals == old(signals)
      ensures !(billingResult.responseCode == OK && list.Some?) ==>
        signals == old(signals) + [PurchaseError(billingResult.responseCode, billingResult.debugMessage)]
    {
      if billingResult.responseCode == OK && list.Some? {
        var objects := ConvertPurchaseListToDictionaryObjectArray(list.value);
        if objects.None? {
          return;
        }
        signals := signals + [PurchasesUpdated(Arr(objects.value[..]))];
      } else {
        signals := signals + [PurchaseError(billingResult.responseCode, billingResult.debugMessage)];
      }
    }

    method OnPriceChangeConfirmationResult(billingResult: BillingResult)
      modifies this`signals
      ensures signals == old(signals) + [PriceChangeAcknowledged(billingResult.responseCode)]
    {
      signals := signals + [PriceChangeAcknowledged(billingResult.responseCode)];
    }

    /** `onMainResume`: `billing_resume` on every resume. */
    method OnMainResume()
      modifies this`signals
      ensures signals == old(signals) + [BillingResume]
    {
      signals := signals + [BillingResume];
    }
  }

  // What a script observes through the adapter.

  /** Purchasing on a freshly created adapter fails locally: nothing has been queried yet. */
  method PurchaseBeforeAnyQuery(sku: string, launchResult: BillingResult) returns (result: Value)
    ensures result == PreconditionFailure(PurchaseBeforeQueryMessage)
    ensures ReadOutcome(result) == Some(Failed(None, PurchaseBeforeQueryMessage))
  {
    var billing := new GodotGooglePlayBilling();
    result := billing.Purchase(sku, launchResult);
  }

  /** Confirming a price change on a freshly created adapter fails locally. */
  method PriceChangeBeforeAnyQuery(sku: string) returns (result: Value)
    ensures result == PreconditionFailure(PriceChangeBeforeQueryMessage)
    ensures ReadOutcome(result) == Some(Failed(None, PriceChangeBeforeQueryMessage))
  {
    var billing := new GodotGooglePlayBilling();
    result := billing.ConfirmPriceChange(sku);
  }

  /**
   * Once a successful query has returned a sku, anywhere in the returned list,
   * purchasing it reaches the vendor and confirming a price change for it
   * succeeds.
   */
  method PurchaseAfterQuery(
    requested: seq<string>, queryResult: BillingResult, list: seq<SkuDetails>, i: nat, launchResult: BillingResult)
    returns (purchaseResult: Value, priceChangeResult: Value)
    requires queryResult.responseCode == OK
    requires i < |list|
    ensures purchaseResult == ResponseDictionary(launchResult)
    ensures ReadOutcome(purchaseResult) == Some(OutcomeOf(launchResult))
    ensures ReadOutcome(priceChangeResult) == Some(Succeeded)
  {
    var billing := new GodotGooglePlayBilling();
    billing.OnSkuDetailsResponse(requested, queryResult, Some(list));
    PutAllKeys(map[], list, SkuOf);
    assert list[i] in list;
    purchaseResult := billing.Purchase(list[i].sku, launchResult);
    priceChangeResult := billing.ConfirmPriceChange(list[i].sku);
  }
}
