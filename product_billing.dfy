/**
 * The ProductDetails-based billing adapter (`GodotGooglePlayBilling.java`).
 *
 * The adapter keeps a cache of the product details the store returned, the
 * two obfuscated ids a script may set, and whether `startConnection` was ever
 * called. Every vendor call is asynchronous: each modelled vendor callback is
 * a method that takes the vendor's `BillingResult` and list as parameters, and
 * the product query also has a request method that records what it asks for.
 * Emitted signals and launched purchase flows are ghost logs.
 */
module ProductBilling {
  import opened GodotValues
  import opened BillingTypes
  import opened DetailsCache
  import opened ProductBillingUtils

  /** The signals the adapter emits, with their arguments. */
  datatype Signal =
    | Connected
    | ConnectError(responseCode: int, debugMessage: string)
    | Disconnected
    | BillingResume
    | PurchasesUpdated(purchases: Value)
    | PurchaseError(responseCode: int, debugMessage: string)
    | QueryPurchasesResponse(response: Value)
    | ProductDetailsQueryCompleted(productDetails: Value)
    | ProductDetailsQueryError(responseCode: int, debugMessage: string, returned: seq<ProductDetails>)
    | PriceChangeAcknowledged(responseCode: int)
    | PurchaseAcknowledged(purchaseToken: string)
    | PurchaseAcknowledgementError(responseCode: int, debugMessage: string, purchaseToken: string)
    | PurchaseConsumed(purchaseToken: string)
    | PurchaseConsumptionError(responseCode: int, debugMessage: string, purchaseToken: string)

  /** `QueryProductDetailsParams.Product`. */
  datatype QueryProduct = QueryProduct(productId: string, productType: string)

  /** `BillingFlowParams.ProductDetailsParams`; the offer token may be null. */
  datatype ProductDetailsParams = ProductDetailsParams(productDetails: ProductDetails, offerToken: Option<string>)

  /** `BillingFlowParams`, with `None` for every setter the builder was not given. */
  datatype BillingFlowParams = BillingFlowParams(
    productDetailsParamsList: seq<ProductDetailsParams>,
    obfuscatedAccountId: Option<string>,
    obfuscatedProfileId: Option<string>,
    subscriptionUpdateParams: Option<SubscriptionUpdateParams>)

  const PurchaseBeforeQueryMessage: string :=
    "You must query the product details and wait for the result before purchasing!"

  /** The cache key of a product: its id. */
  function ProductIdOf(details: ProductDetails): string
  {
    details.productId
  }

  /**
   * The rules `purchaseInternal` follows when it builds the flow for `details`:
   * one product, offered with the token of its first subscription offer when
   * it has any and with no token otherwise; each obfuscated id only when it is
   * non-empty; subscription-update params only when there is an old token and
   * the proration mode is not UNKNOWN. The rules fix every field of the flow.
   */
  ghost predicate FlowRules(
    params: BillingFlowParams, details: ProductDetails,
    accountId: string, profileId: string, oldToken: string, prorationMode: int)
  {
    && |params.productDetailsParamsList| == 1
    && params.productDetailsParamsList[0].productDetails == details
    && (params.productDetailsParamsList[0].offerToken.Some? <==> HasOffers(details))
    && (HasOffers(details) ==>
          params.productDetailsParamsList[0].offerToken == Some(details.subscriptionOfferDetails.value[0].offerToken))
    && (params.obfuscatedAccountId.Some? <==> accountId != "")
    && (params.obfuscatedAccountId.Some? ==> params.obfuscatedAccountId.value == accountId)
    && (params.obfuscatedProfileId.Some? <==> profileId != "")
    && (params.obfuscatedProfileId.Some? ==> params.obfuscatedProfileId.value == profileId)
    && (params.subscriptionUpdateParams.Some? <==>
          oldToken != "" && prorationMode != UNKNOWN_SUBSCRIPTION_UPGRADE_DOWNGRADE_POLICY)
    && (params.subscriptionUpdateParams.Some? ==>
          params.subscriptionUpdateParams.value == SubscriptionUpdateParams(oldToken, prorationMode))
  }

  /** The product list `querySkuDetails` asks for: one entry per requested id, in order, all of the given type. */
  method BuildQueryProducts(list: seq<string>, productType: string) returns (products: seq<QueryProduct>)
    ensures |products| == |list|
    ensures forall i :: 0 <= i < |list| ==> products[i] == QueryProduct(list[i], productType)
  {
    products := [];
    for i := 0 to |list|
      invariant |products| == i
      invariant forall j :: 0 <= j < i ==> products[j] == QueryProduct(list[j], productType)
    {
      products := products + [QueryProduct(list[i], productType)];
    }
  }

  /** The builder steps of `purchaseInternal`, from choosing the offer token to the update params. */
  method BuildBillingFlowParams(
    details: ProductDetails, accountId: string, profileId: string, oldToken: string, prorationMode: int)
    returns (params: BillingFlowParams)
    ensures FlowRules(params, details, accountId, profileId, oldToken, prorationMode)
  {
    var offerToken: Option<string> := None;
    if details.subscriptionOfferDetails.Some? && |details.subscriptionOfferDetails.value| != 0 {
      offerToken := Some(details.subscriptionOfferDetails.value[0].offerToken);
    }
    var productParams := [ProductDetailsParams(details, offerToken)];

    params := BillingFlowParams(productParams, None, None, None);
    if accountId != "" {
      params := params.(obfuscatedAccountId := Some(accountId));
    }
    if profileId != "" {
      params := params.(obfuscatedProfileId := Some(profileId));
    }
    if oldToken != "" && prorationMode != UNKNOWN_SUBSCRIPTION_UPGRADE_DOWNGRADE_POLICY {
      params := params.(subscriptionUpdateParams := Some(SubscriptionUpdateParams(oldToken, prorationMode)));
    }
  }

  class GodotGooglePlayBilling {
    /** Product id to the last details the store returned for it. */
    var productDetailsCache: map<string, ProductDetails>
    var calledStartConnection: bool
    var obfuscatedAccountId: string
    var obfuscatedProfileId: string

    /** Every signal emitted so far, oldest first. */
    ghost var signals: seq<Signal>
    /** Every purchase flow handed to `launchBillingFlow`, oldest first. */
    ghost var launchedFlows: seq<BillingFlowParams>
    /** Every product list handed to `queryProductDetailsAsync`, oldest first. */
    ghost var productQueries: seq<seq<QueryProduct>>

    /** Every cached record is stored under its own product id. */
    ghost predicate Valid()
      reads this`productDetailsCache
    {
      forall id :: id in productDetailsCache ==> productDetailsCache[id].productId == id
    }

    constructor()
      ensures Valid()
      ensures productDetailsCache == map[] && !calledStartConnection
      ensures obfuscatedAccountId == "" && obfuscatedProfileId == ""
      ensures signals == [] && launchedFlows == [] && productQueries == []
    {
      productDetailsCache := map[];
      calledStartConnection := false;
      obfuscatedAccountId := "";
      obfuscatedProfileId := "";
      signals := [];
      launchedFlows := [];
      productQueries := [];
    }

    /** `startConnection`: the flag is raised and never lowered again. */
    method StartConnection()
      modifies this`calledStartConnection
      ensures calledStartConnection
    {
      calledStartConnection := true;
    }

    /** The `queryPurchasesAsync` callback: one `query_purchases_response` signal. */
    method OnQueryPurchasesResponse(billingResult: BillingResult, purchaseList: seq<Purchase>)
      modifies this`signals
      ensures signals == old(signals) + [QueryPurchasesResponse(
        PurchasesQueryDictionary(billingResult, ArrayOf(purchaseList, ConvertPurchaseToDictionary)))]
    {
      var returnValue;
      if billingResult.responseCode == OK {
        var purchases := ConvertPurchaseListToDictionaryObjectArray(purchaseList);
        assert Arr(purchases[..]) == ArrayOf(purchaseList, ConvertPurchaseToDictionary);
        returnValue := D(map["status" := I(STATUS_OK), "purchases" := Arr(purchases[..])]);
      } else {
        returnValue := D(map["status" := I(STATUS_FAILED),
                             "response_code" := I(billingResult.responseCode),
                             "debug_message" := S(billingResult.debugMessage)]);
      }
      signals := signals + [QueryPurchasesResponse(returnValue)];
    }

    /** `querySkuDetails`: the request for the given ids, all of the given type. */
    method QuerySkuDetails(list: seq<string>, productType: string)
      modifies this`productQueries
      ensures |productQueries| == |old(productQueries)| + 1
      ensures productQueries[..|old(productQueries)|] == old(productQueries)
      ensures var products := productQueries[|productQueries| - 1];
        && |products| == |list|
        && forall i :: 0 <= i < |list| ==> products[i] == QueryProduct(list[i], productType)
    {
      var products := BuildQueryProducts(list, productType);
      productQueries := productQueries + [products];
    }

    /** The loop of the query callback: one `put` per returned record, in list order. */
    method CacheProductDetails(list: seq<ProductDetails>)
      requires Valid()
      modifies this`productDetailsCache
      ensures Valid()
      ensures productDetailsCache == PutAll(old(productDetailsCache), list, ProductIdOf)
    {
      for i := 0 to |list|
        invariant productDetailsCache == PutAll(old(productDetailsCache), list[..i], ProductIdOf)
      {
        assert list[..i + 1][..i] == list[..i];
        productDetailsCache := productDetailsCache[list[i].productId := list[i]];
      }
      assert list[..|list|] == list;
      PutAllKeyed(old(productDetailsCache), list, ProductIdOf);
    }

    /**
     * The `queryProductDetailsAsync` callback. On OK every returned record is
     * put into the cache under its id, in list order, and the converted list
     * is emitted; otherwise the cache is untouched and the error is emitted
     * with the returned list.
     */
    method OnProductDetailsResponse(billingResult: BillingResult, list: seq<ProductDetails>)
      requires Valid()
      modifies this`productDetailsCache, this`signals
      ensures Valid()
      ensures billingResult.responseCode == OK ==>
        && productDetailsCache == PutAll(old(productDetailsCache), list, ProductIdOf)
        && signals == old(signals) + [ProductDetailsQueryCompleted(ArrayOf(list, ProductDetailsDictionary))]
      ensures billingResult.responseCode != OK ==>
        && productDetailsCache == old(productDetailsCache)
        && signals == old(signals) + [ProductDetailsQueryError(billingResult.responseCode, billingResult.debugMessage, list)]
    {
      if billingResult.responseCode == OK {
        CacheProductDetails(list);
        var objects := ConvertProductDetailsListToDictionaryObjectArray(list);
        assert Arr(objects[..]) == ArrayOf(list, ProductDetailsDictionary);
        signals := signals + [ProductDetailsQueryCompleted(Arr(objects[..]))];
      } else {
        signals := signals + [ProductDetailsQueryError(billingResult.responseCode, billingResult.debugMessage, list)];
      }
    }

    /** The `acknowledgePurchase` callback, reporting the token that was acknowledged. */
    method OnAcknowledgePurchaseResponse(purchaseToken: string, billingResult: BillingResult)
      modifies this`signals
      ensures signals == old(signals) + [
        if billingResult.responseCode == OK then PurchaseAcknowledged(purchaseToken)
        else PurchaseAcknowledgementError(billingResult.responseCode, billingResult.debugMessage, purchaseToken)]
    {
      if billingResult.responseCode == OK {
        signals := signals + [PurchaseAcknowledged(purchaseToken)];
      } else {
        signals := signals + [PurchaseAcknowledgementError(billingResult.responseCode, billingResult.debugMessage, purchaseToken)];
      }
    }

    /** The `consumeAsync` callback, reporting the token the vendor passes back. */
    method OnConsumeResponse(billingResult: BillingResult, purchaseToken: string)
      modifies this`signals
      ensures signals == old(signals) + [
        if billingResult.responseCode == OK then PurchaseConsumed(purchaseToken)
        else PurchaseConsumptionError(billingResult.responseCode, billingResult.debugMessage, purchaseToken)]
    {
      if billingResult.responseCode == OK {
        signals := signals + [PurchaseConsumed(purchaseToken)];
      } else {
        signals := signals + [PurchaseConsumptionError(billingResult.responseCode, billingResult.debugMessage, purchaseToken)];
      }
    }

    method OnBillingSetupFinished(billingResult: BillingResult)
      modifies this`signals
      ensures signals == old(signals) + [
        if billingResult.responseCode == OK then Connected
        else ConnectError(billingResult.responseCode, billingResult.debugMessage)]
    {
      if billingResult.responseCode == OK {
        signals := signals + [Connected];
      } else {
        signals := signals + [ConnectError(billingResult.responseCode, billingResult.debugMessage)];
      }
    }

    method OnBillingServiceDisconnected()
      modifies this`signals
      ensures signals == old(signals) + [Disconnected]
    {
      signals := signals + [Disconnected];
    }

    /** `purchase`: a plain purchase, never a subscription update. */
    method Purchase(sku: string, launchResult: BillingResult) returns (result: Value)
      requires Valid()
      modifies this`launchedFlows
      ensures sku !in productDetailsCache ==>
        result == PreconditionFailure(PurchaseBeforeQueryMessage) && launchedFlows == old(launchedFlows)
      ensures sku in productDetailsCache ==>
        && result == ResponseDictionary(launchResult)
        && |launchedFlows| == |old(launchedFlows)| + 1
        && launchedFlows[..|old(launchedFlows)|] == old(launchedFlows)
        && FlowRules(launchedFlows[|launchedFlows| - 1], productDetailsCache[sku],
                     obfuscatedAccountId, obfuscatedProfileId, "", UNKNOWN_SUBSCRIPTION_UPGRADE_DOWNGRADE_POLICY)
        && launchedFlows[|launchedFlows| - 1].subscriptionUpdateParams.None?
    {
      result := PurchaseInternal("", sku, UNKNOWN_SUBSCRIPTION_UPGRADE_DOWNGRADE_POLICY, launchResult);
    }

    /** `updateSubscription`: a purchase that replaces the purchase with `oldToken`. */
    method UpdateSubscription(oldToken: string, sku: string, prorationMode: int, launchResult: BillingResult)
      returns (result: Value)
      requires Valid()
      modifies this`launchedFlows
      ensures sku !in productDetailsCache ==>
        result == PreconditionFailure(PurchaseBeforeQueryMessage) && launchedFlows == old(launchedFlows)
      ensures sku in productDetailsCache ==>
        && result == ResponseDictionary(launchResult)
        && |launchedFlows| == |old(launchedFlows)| + 1
        && launchedFlows[..|old(launchedFlows)|] == old(launchedFlows)
        && FlowRules(launchedFlows[|launchedFlows| - 1], productDetailsCache[sku],
                     obfuscatedAccountId, obfuscatedProfileId, oldToken, prorationMode)
    {
      result := PurchaseInternal(oldToken, sku, prorationMode, launchResult);
    }

    /**
     * `purchaseInternal`. Without cached details for the product it fails
     * locally, launches nothing and changes nothing. Otherwise it launches one
     * flow for the cached details and reports the vendor's launch result.
     * `launchResult` is what `launchBillingFlow` returns.
     */
    method PurchaseInternal(oldToken: string, productId: string, prorationMode: int, launchResult: BillingResult)
      returns (result: Value)
      requires Valid()
      modifies this`launchedFlows
      ensures productId !in productDetailsCache ==>
        result == PreconditionFailure(PurchaseBeforeQueryMessage) && launchedFlows == old(launchedFlows)
      ensures productId in productDetailsCache ==>
        && result == ResponseDictionary(launchResult)
        && |launchedFlows| == |old(launchedFlows)| + 1
        && launchedFlows[..|old(launchedFlows)|] == old(launchedFlows)
        && FlowRules(launchedFlows[|launchedFlows| - 1], productDetailsCache[productId],
                     obfuscatedAccountId, obfuscatedProfileId, oldToken, prorationMode)
        && launchedFlows[|launchedFlows| - 1].productDetailsParamsList[0].productDetails.productId == productId
    {
      if productId !in productDetailsCache {
        return D(map["status" := I(STATUS_FAILED), "response_code" := Null,
                     "debug_message" := S(PurchaseBeforeQueryMessage)]);
      }
      var productDetails := productDetailsCache[productId];
      var params := BuildBillingFlowParams(productDetails, obfuscatedAccountId, obfuscatedProfileId, oldToken, prorationMode);
      launchedFlows := launchedFlows + [params];

      if launchResult.responseCode == OK {
        result := D(map["status" := I(STATUS_OK)]);
      } else {
        result := D(map["status" := I(STATUS_FAILED),
                        "response_code" := I(launchResult.responseCode),
                        "debug_message" := S(launchResult.debugMessage)]);
      }
    }

    method SetObfuscatedAccountId(accountId: string)
      modifies this`obfuscatedAccountId
      ensures obfuscatedAccountId == accountId
    {
      obfuscatedAccountId := accountId;
    }

    method SetObfuscatedProfileId(profileId: string)
      modifies this`obfuscatedProfileId
      ensures obfuscatedProfileId == profileId
    {
      obfuscatedProfileId := profileId;
    }

    /** `onPurchasesUpdated`: the converted purchases on OK with a list, the error otherwise. */
    method OnPurchasesUpdated(billingResult: BillingResult, list: Option<seq<Purchase>>)
      modifies this`signals
      ensures billingResult.responseCode == OK && list.Some? ==>
        signals == old(signals) + [PurchasesUpdated(ArrayOf(list.value, ConvertPurchaseToDictionary))]
      ensures !(billingResult.responseCode == OK && list.Some?) ==>
        signals == old(signals) + [PurchaseError(billingResult.responseCode, billingResult.debugMessage)]
    {
      if billingResult.responseCode == OK && list.Some? {
        var objects := ConvertPurchaseListToDictionaryObjectArray(list.value);
        assert Arr(objects[..]) == ArrayOf(list.value, ConvertPurchaseToDictionary);
        signals := signals + [PurchasesUpdated(Arr(objects[..]))];
      } else {
        signals := signals + [PurchaseError(billingResult.responseCode, billingResult.debugMessage)];
      }
    }

    method OnPriceChangeConfirmationResult(billingResult: BillingResult)
      modifies this`signals
      ensures signals == old(signals) + [PriceChangeAcknowledged(billingResult.responseCode)]
    {
      signals := signals + [PriceChangeAcknowledged(billingResult.responseCode)];
    }

    /** `onMainResume`: `billing_resume` only once `startConnection` has been called. */
    method OnMainResume()
      modifies this`signals
      ensures signals == old(signals) + (if calledStartConnection then [BillingResume] else [])
    {
      if calledStartConnection {
        signals := signals + [BillingResume];
      }
    }
  }

  // What a script observes through the adapter.

  /** Purchasing on a freshly created adapter fails locally: nothing has been queried yet. */
  method PurchaseBeforeAnyQuery(sku: string, launchResult: BillingResult) returns (result: Value)
    ensures result == PreconditionFailure(PurchaseBeforeQueryMessage)
    ensures ReadOutcome(result) == Some(Failed(None, PurchaseBeforeQueryMessage))
  {
    var billing := new GodotGooglePlayBilling();
    result := billing.Purchase(sku, launchResult);
  }

  /**
   * Once a successful query has returned a product, anywhere in the returned
   * list, purchasing it reaches the vendor, and the script sees the vendor's
   * launch result.
   */
  method PurchaseAfterQuery(queryResult: BillingResult, list: seq<ProductDetails>, i: nat, launchResult: BillingResult)
    returns (result: Value)
    requires queryResult.responseCode == OK
    requires i < |list|
    ensures result == ResponseDictionary(launchResult)
    ensures ReadOutcome(result) == Some(OutcomeOf(launchResult))
  {
    var billing := new GodotGooglePlayBilling();
    billing.OnProductDetailsResponse(queryResult, list);
    PutAllKeys(map[], list, ProductIdOf);
    assert list[i] in list;
    result := billing.Purchase(list[i].productId, launchResult);
  }

  /**
   * A failed query leaves the adapter without details, so a purchase of a
   * product that was never returned still fails locally.
   */
  method PurchaseAfterFailedQuery(list: seq<ProductDetails>, code: int, sku: string, launchResult: BillingResult)
    returns (result: Value)
    requires code != OK
    ensures result == PreconditionFailure(PurchaseBeforeQueryMessage)
  {
    var billing := new GodotGooglePlayBilling();
    billing.OnProductDetailsResponse(BillingResult(code, ""), list);
    result := billing.Purchase(sku, launchResult);
  }
}
