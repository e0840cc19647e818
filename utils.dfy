/**
 * The conversion utilities of the newest plugin (`plugin/googleplaybilling/Utils.kt`).
 * Unlike the Java converter, every optional entry is always present: it holds
 * `Null` when the vendor field is absent. The array-filling loops are methods
 * proved against the functions that describe their result; the straight-line
 * converters are functions.
 */
module Utils {
  import opened GodotValues
  import opened BillingTypes

  /** A product the vendor could not fetch (`UnfetchedProduct`). */
  datatype UnfetchedProduct = UnfetchedProduct(productId: string, productType: string, statusCode: int)

  /** `SubscriptionOfferDetails.InstallmentPlanDetails`. */
  datatype InstallmentPlanDetails = InstallmentPlanDetails(
    commitmentPaymentsCount: int,
    subsequentCommitmentPaymentsCount: int)

  /** `ProductDetails.SubscriptionOfferDetails`; the offer id and the installment plan may be null. */
  datatype SubscriptionOfferDetails = SubscriptionOfferDetails(
    basePlanId: string,
    offerId: Option<string>,
    offerToken: string,
    installmentPlanDetails: Option<InstallmentPlanDetails>,
    pricingPhases: seq<PricingPhase>,
    offerTags: seq<string>)

  /** `ProductDetails`, as far as this converter reads it; both offer fields may be null. */
  datatype ProductDetails = ProductDetails(
    productId: string,
    title: string,
    name: string,
    description: string,
    productType: string,
    oneTimePurchaseOfferDetails: Option<OneTimePurchaseOfferDetails>,
    subscriptionOfferDetails: Option<seq<SubscriptionOfferDetails>>)

  /** `subOffers.isNullOrEmpty()` is false. */
  predicate HasOffers(d: ProductDetails)
  {
    d.subscriptionOfferDetails.Some? && |d.subscriptionOfferDetails.value| > 0
  }

  const PurchaseKeys: set<string> := {
    "order_id", "purchase_token", "package_name", "purchase_state", "purchase_time",
    "original_json", "is_acknowledged", "is_auto_renewing", "quantity", "signature", "product_ids"}

  const ProductDetailsKeys: set<string> := {
    "product_id", "title", "name", "description", "product_type",
    "one_time_purchase_offer_details", "subscription_offer_details"}

  const OfferKeys: set<string> := {
    "base_plan_id", "offer_id", "offer_token", "installment_plan_details", "pricing_phases", "offer_tags"}

  /** `purchaseToDictionary`: eleven keys, `product_ids` being the purchase's products in order. */
  function PurchaseToDictionary(purchase: Purchase): Value
  {
    D(map[
      "order_id" := OrNull(purchase.orderId),
      "purchase_token" := S(purchase.purchaseToken),
      "package_name" := S(purchase.packageName),
      "purchase_state" := I(purchase.purchaseState),
      "purchase_time" := I(purchase.purchaseTime),
      "original_json" := S(purchase.originalJson),
      "is_acknowledged" := B(purchase.isAcknowledged),
      "is_auto_renewing" := B(purchase.isAutoRenewing),
      "quantity" := I(purchase.quantity),
      "signature" := S(purchase.signature),
      "product_ids" := Strings(purchase.products)])
  }

  /** `unfetchedProductToDictionary`: exactly the three fields, copied. */
  function UnfetchedProductToDictionary(product: UnfetchedProduct): (v: Value)
    ensures v.D? && v.entries.Keys == {"product_id", "product_type", "status_code"}
  {
    D(map[
      "product_id" := S(product.productId),
      "product_type" := S(product.productType),
      "status_code" := I(product.statusCode)])
  }

  /** `oneTimeOfferToDict`: the three price fields. */
  function OneTimeOfferToDict(offer: OneTimePurchaseOfferDetails): (v: Value)
    ensures v.D? && v.entries.Keys == {"price_amount_micros", "price_currency_code", "formatted_price"}
  {
    D(map[
      "price_amount_micros" := I(offer.priceAmountMicros),
      "price_currency_code" := S(offer.priceCurrencyCode),
      "formatted_price" := S(offer.formattedPrice)])
  }

  /** `createResultDict`: exactly the response code and the debug message. */
  function CreateResultDict(responseCode: int, debugMessage: string): (v: Value)
    ensures v.D? && v.entries.Keys == {"response_code", "debug_message"}
    ensures DecodeResult(v) == Some(BillingResult(responseCode, debugMessage))
  {
    D(map["response_code" := I(responseCode), "debug_message" := S(debugMessage)])
  }

  /** The `installment_plan_details` entry: `Null` for no plan, else its two counts. */
  function InstallmentToValue(plan: Option<InstallmentPlanDetails>): Value
  {
    match plan
    case None => Null
    case Some(p) =>
      D(map[
        "installment_plan_commitment_payments_count" := I(p.commitmentPaymentsCount),
        "subsequent_installment_plan_commitment_payments_count" := I(p.subsequentCommitmentPaymentsCount)])
  }

  /** One entry of `pricing_phases`. */
  function PricingPhaseDictionary(phase: PricingPhase): Value
  {
    D(map[
      "price_amount_micros" := I(phase.priceAmountMicros),
      "price_currency_code" := S(phase.priceCurrencyCode),
      "formatted_price" := S(phase.formattedPrice),
      "billing_period" := S(phase.billingPeriod),
      "recurrence_mode" := I(phase.recurrenceMode),
      "billing_cycle_count" := I(phase.billingCycleCount)])
  }

  /** The dictionary `subscriptionOfferToDict` builds. */
  function SubscriptionOfferDictionary(offer: SubscriptionOfferDetails): Value
  {
    D(map[
      "base_plan_id" := S(offer.basePlanId),
      "offer_id" := OrNull(offer.offerId),
      "offer_token" := S(offer.offerToken),
      "installment_plan_details" := InstallmentToValue(offer.installmentPlanDetails),
      "pricing_phases" := ArrayOf(offer.pricingPhases, PricingPhaseDictionary),
      "offer_tags" := Strings(offer.offerTags)])
  }

  /** The dictionary `productDetailsToDictionary` builds. */
  function ProductDetailsDictionary(details: ProductDetails): Value
  {
    D(map[
      "product_id" := S(details.productId),
      "title" := S(details.title),
      "name" := S(details.name),
      "description" := S(details.description),
      "product_type" := S(details.productType),
      "one_time_purchase_offer_details" :=
        (match details.oneTimePurchaseOfferDetails
         case None => Null
         case Some(offer) => OneTimeOfferToDict(offer)),
      "subscription_offer_details" :=
        if HasOffers(details) then ArrayOf(details.subscriptionOfferDetails.value, SubscriptionOfferDictionary)
        else Null])
  }

  /** `subscriptionOfferToDict`: straight-line `put`s plus a loop filling `phasesArray` by index. */
  method SubscriptionOfferToDict(offer: SubscriptionOfferDetails) returns (v: Value)
    ensures v == SubscriptionOfferDictionary(offer)
  {
    var dict: map<string, Value> := map[];
    dict := dict["base_plan_id" := S(offer.basePlanId)];
    dict := dict["offer_id" := OrNull(offer.offerId)];
    dict := dict["offer_token" := S(offer.offerToken)];
    dict := dict["installment_plan_details" := InstallmentToValue(offer.installmentPlanDetails)];

    var pricingPhaseList := offer.pricingPhases;
    var phasesArray := new Value[|pricingPhaseList|](_ => Null);
    for i := 0 to |pricingPhaseList|
      invariant forall j :: 0 <= j < i ==> phasesArray[j] == PricingPhaseDictionary(pricingPhaseList[j])
    {
      var phase := pricingPhaseList[i];
      var phaseDict: map<string, Value> := map[];
      phaseDict := phaseDict["price_amount_micros" := I(phase.priceAmountMicros)];
      phaseDict := phaseDict["price_currency_code" := S(phase.priceCurrencyCode)];
      phaseDict := phaseDict["formatted_price" := S(phase.formattedPrice)];
      phaseDict := phaseDict["billing_period" := S(phase.billingPeriod)];
      phaseDict := phaseDict["recurrence_mode" := I(phase.recurrenceMode)];
      phaseDict := phaseDict["billing_cycle_count" := I(phase.billingCycleCount)];
      phasesArray[i] := D(phaseDict);
    }
    assert Arr(phasesArray[..]) == ArrayOf(pricingPhaseList, PricingPhaseDictionary);

    dict := dict["pricing_phases" := Arr(phasesArray[..])];
    dict := dict["offer_tags" := Strings(offer.offerTags)];
    v := D(dict);
  }

  /** `productDetailsToDictionary`: straight-line `put`s plus a loop filling the offer array by index. */
  method ProductDetailsToDictionary(details: ProductDetails) returns (v: Value)
    ensures v == ProductDetailsDictionary(details)
  {
    var dict: map<string, Value> := map[];
    dict := dict["product_id" := S(details.productId)];
    dict := dict["title" := S(details.title)];
    dict := dict["name" := S(details.name)];
    dict := dict["description" := S(details.description)];
    dict := dict["product_type" := S(details.productType)];
    dict := dict["one_time_purchase_offer_details" :=
      match details.oneTimePurchaseOfferDetails
      case None => Null
      case Some(offer) => OneTimeOfferToDict(offer)];

    if details.subscriptionOfferDetails.Some? && |details.subscriptionOfferDetails.value| > 0 {
      var subOffers := details.subscriptionOfferDetails.value;
      var offers := new Value[|subOffers|](_ => Null);
      for i := 0 to |subOffers|
        invariant forall j :: 0 <= j < i ==> offers[j] == SubscriptionOfferDictionary(subOffers[j])
      {
        offers[i] := SubscriptionOfferToDict(subOffers[i]);
      }
      assert Arr(offers[..]) == ArrayOf(subOffers, SubscriptionOfferDictionary);
      dict := dict["subscription_offer_details" := Arr(offers[..])];
    } else {
      dict := dict["subscription_offer_details" := Null];
    }
    v := D(dict);
  }

  /** `convertPurchaseListToArray`: one dictionary per purchase, by index. */
  method ConvertPurchaseListToArray(purchases: seq<Purchase>) returns (objects: array<Value>)
    ensures objects.Length == |purchases|
    ensures forall i :: 0 <= i < |purchases| ==> objects[i] == PurchaseToDictionary(purchases[i])
  {
    objects := new Value[|purchases|](_ => Null);
    for i := 0 to |purchases|
      invariant forall j :: 0 <= j < i ==> objects[j] == PurchaseToDictionary(purchases[j])
    {
      objects[i] := PurchaseToDictionary(purchases[i]);
    }
  }

  /** `convertUnfetchedProductListToArray`: one dictionary per product, by index. */
  method ConvertUnfetchedProductListToArray(productList: seq<UnfetchedProduct>) returns (objects: array<Value>)
    ensures objects.Length == |productList|
    ensures forall i :: 0 <= i < |productList| ==> objects[i] == UnfetchedProductToDictionary(productList[i])
  {
    objects := new Value[|productList|](_ => Null);
    for i := 0 to |productList|
      invariant forall j :: 0 <= j < i ==> objects[j] == UnfetchedProductToDictionary(productList[j])
    {
      objects[i] := UnfetchedProductToDictionary(productList[i]);
    }
  }

  /** `convertProductDetailsListToArray`: one dictionary per product, by index. */
  method ConvertProductDetailsListToArray(detailsList: seq<ProductDetails>) returns (objects: array<Value>)
    ensures objects.Length == |detailsList|
    ensures forall i :: 0 <= i < |detailsList| ==> objects[i] == ProductDetailsDictionary(detailsList[i])
  {
    objects := new Value[|detailsList|](_ => Null);
    for i := 0 to |detailsList|
      invariant forall j :: 0 <= j < i ==> objects[j] == ProductDetailsDictionary(detailsList[j])
    {
      objects[i] := ProductDetailsToDictionary(detailsList[i]);
    }
  }

  // Shapes: which keys each dictionary has and what the optional entries hold.

  /** A purchase dictionary has exactly eleven keys; `product_ids` is the purchase's products in order. */
  lemma PurchaseDictionaryShape(purchase: Purchase)
    ensures var v := PurchaseToDictionary(purchase);
      && v.D? && v.entries.Keys == PurchaseKeys
      && v.entries["product_ids"] == Strings(purchase.products)
  {
  }

  /**
   * An offer dictionary always has its six keys; `installment_plan_details` is
   * `Null` iff there is no installment plan and otherwise holds its two counts.
   */
  lemma OfferDictionaryShape(offer: SubscriptionOfferDetails)
    ensures var v := SubscriptionOfferDictionary(offer);
      && v.D? && v.entries.Keys == OfferKeys
      && (v.entries["installment_plan_details"].Null? <==> offer.installmentPlanDetails.None?)
      && (offer.installmentPlanDetails.Some? ==>
            var plan := offer.installmentPlanDetails.value;
            v.entries["installment_plan_details"] == D(map[
              "installment_plan_commitment_payments_count" := I(plan.commitmentPaymentsCount),
              "subsequent_installment_plan_commitment_payments_count" := I(plan.subsequentCommitmentPaymentsCount)]))
      && v.entries["pricing_phases"] == ArrayOf(offer.pricingPhases, PricingPhaseDictionary)
      && v.entries["offer_tags"] == Strings(offer.offerTags)
  {
  }

  /**
   * A product-details dictionary always has its seven keys;
   * `one_time_purchase_offer_details` is `Null` iff there is no one-time offer
   * and otherwise holds its three price fields; `subscription_offer_details` is
   * `Null` iff the offer list is null or empty and otherwise one dictionary per
   * offer, in order.
   */
  lemma ProductDetailsDictionaryShape(details: ProductDetails)
    ensures var v := ProductDetailsDictionary(details);
      && v.D? && v.entries.Keys == ProductDetailsKeys
      && (v.entries["one_time_purchase_offer_details"].Null? <==> details.oneTimePurchaseOfferDetails.None?)
      && (details.oneTimePurchaseOfferDetails.Some? ==>
            v.entries["one_time_purchase_offer_details"] == OneTimeOfferToDict(details.oneTimePurchaseOfferDetails.value))
      && (v.entries["subscription_offer_details"].Null? <==> !HasOffers(details))
      && (HasOffers(details) ==>
            v.entries["subscription_offer_details"] == ArrayOf(details.subscriptionOfferDetails.value, SubscriptionOfferDictionary))
  {
  }

  // Readers of the dictionaries above.

  function DecodeResult(v: Value): Option<BillingResult>
  {
    var m :- AsDict(v);
    var responseCode :- IntAt(m, "response_code");
    var debugMessage :- StringAt(m, "debug_message");
    Some(BillingResult(responseCode, debugMessage))
  }

  function DecodePurchase(v: Value): Option<Purchase>
  {
    var m :- AsDict(v);
    var orderId :- NullableStringAt(m, "order_id");
    var purchaseToken :- StringAt(m, "purchase_token");
    var packageName :- StringAt(m, "package_name");
    var purchaseState :- IntAt(m, "purchase_state");
    var purchaseTime :- IntAt(m, "purchase_time");
    var originalJson :- StringAt(m, "original_json");
    var isAcknowledged :- BoolAt(m, "is_acknowledged");
    var isAutoRenewing :- BoolAt(m, "is_auto_renewing");
    var quantity :- IntAt(m, "quantity");
    var signature :- StringAt(m, "signature");
    var products :- StringsAt(m, "product_ids");
    Some(Purchase(originalJson, orderId, packageName, purchaseState, purchaseTime, purchaseToken,
                  quantity, signature, products, isAcknowledged, isAutoRenewing))
  }

  function DecodeUnfetchedProduct(v: Value): Option<UnfetchedProduct>
  {
    var m :- AsDict(v);
    var productId :- StringAt(m, "product_id");
    var productType :- StringAt(m, "product_type");
    var statusCode :- IntAt(m, "status_code");
    Some(UnfetchedProduct(productId, productType, statusCode))
  }

  function DecodeOneTimeOffer(v: Value): Option<OneTimePurchaseOfferDetails>
  {
    var m :- AsDict(v);
    var priceAmountMicros :- IntAt(m, "price_amount_micros");
    var priceCurrencyCode :- StringAt(m, "price_currency_code");
    var formattedPrice :- StringAt(m, "formatted_price");
    Some(OneTimePurchaseOfferDetails(formattedPrice, priceAmountMicros, priceCurrencyCode))
  }

  function DecodeInstallment(v: Value): Option<Option<InstallmentPlanDetails>>
  {
    if v.Null? then Some(None)
    else
      var m :- AsDict(v);
      var commitment :- IntAt(m, "installment_plan_commitment_payments_count");
      var subsequent :- IntAt(m, "subsequent_installment_plan_commitment_payments_count");
      Some(Some(InstallmentPlanDetails(commitment, subsequent)))
  }

  function DecodePricingPhase(v: Value): Option<PricingPhase>
  {
    var m :- AsDict(v);
    var priceAmountMicros :- IntAt(m, "price_amount_micros");
    var priceCurrencyCode :- StringAt(m, "price_currency_code");
    var formattedPrice :- StringAt(m, "formatted_price");
    var billingPeriod :- StringAt(m, "billing_period");
    var recurrenceMode :- IntAt(m, "recurrence_mode");
    var billingCycleCount :- IntAt(m, "billing_cycle_count");
    Some(PricingPhase(billingCycleCount, billingPeriod, formattedPrice, priceAmountMicros,
                      priceCurrencyCode, recurrenceMode))
  }

  function DecodeOffer(v: Value): Option<SubscriptionOfferDetails>
  {
    var m :- AsDict(v);
    var basePlanId :- StringAt(m, "base_plan_id");
    var offerId :- NullableStringAt(m, "offer_id");
    var offerToken :- StringAt(m, "offer_token");
    var installment :- ValueAt(m, "installment_plan_details");
    var installmentPlanDetails :- DecodeInstallment(installment);
    var phases :- ValueAt(m, "pricing_phases");
    var pricingPhases :- AsArrayOf(phases, DecodePricingPhase);
    var offerTags :- StringsAt(m, "offer_tags");
    Some(SubscriptionOfferDetails(basePlanId, offerId, offerToken, installmentPlanDetails, pricingPhases, offerTags))
  }

  function DecodeProductDetails(v: Value): Option<ProductDetails>
  {
    var m :- AsDict(v);
    var productId :- StringAt(m, "product_id");
    var title :- StringAt(m, "title");
    var name :- StringAt(m, "name");
    var description :- StringAt(m, "description");
    var productType :- StringAt(m, "product_type");
    var oneTimeValue :- ValueAt(m, "one_time_purchase_offer_details");
    var oneTime :-
      if oneTimeValue.Null? then Some(None)
      else var o :- DecodeOneTimeOffer(oneTimeValue); Some(Some(o));
    var offersValue :- ValueAt(m, "subscription_offer_details");
    var offers :-
      if offersValue.Null? then Some(None)
      else var os :- AsArrayOf(offersValue, DecodeOffer); Some(Some(os));
    Some(ProductDetails(productId, title, name, description, productType, oneTime, offers))
  }

  /** Product details as they survive conversion: an empty offer list reads back as null. */
  function WithoutEmptyOffers(d: ProductDetails): ProductDetails
  {
    if HasOffers(d) then d else d.(subscriptionOfferDetails := None)
  }

  // Round trips: reading a converted record back gives the record.

  /** The identifying entries of a purchase dictionary, as a reader sees them. */
  lemma PurchaseIdentityRead(purchase: Purchase)
    ensures var m := PurchaseToDictionary(purchase).entries;
      && StringAt(m, "original_json") == Some(purchase.originalJson)
      && NullableStringAt(m, "order_id") == Some(purchase.orderId)
      && StringAt(m, "package_name") == Some(purchase.packageName)
      && StringAt(m, "purchase_token") == Some(purchase.purchaseToken)
  {
  }

  /** The state entries of a purchase dictionary, as a reader sees them. */
  lemma PurchaseStateRead(purchase: Purchase)
    ensures var m := PurchaseToDictionary(purchase).entries;
      && IntAt(m, "purchase_state") == Some(purchase.purchaseState)
      && IntAt(m, "purchase_time") == Some(purchase.purchaseTime)
      && IntAt(m, "quantity") == Some(purchase.quantity)
      && StringAt(m, "signature") == Some(purchase.signature)
  {
  }

  /** The flags and the product list of a purchase dictionary, as a reader sees them. */
  lemma PurchaseFlagsRead(purchase: Purchase)
    ensures var m := PurchaseToDictionary(purchase).entries;
      && BoolAt(m, "is_acknowledged") == Some(purchase.isAcknowledged)
      && BoolAt(m, "is_auto_renewing") == Some(purchase.isAutoRenewing)
      && ValueAt(m, "product_ids") == Some(Strings(purchase.products))
  {
  }

  lemma PurchaseRoundTrip(purchase: Purchase)
    ensures DecodePurchase(PurchaseToDictionary(purchase)) == Some(purchase)
  {
    PurchaseIdentityRead(purchase);
    PurchaseStateRead(purchase);
    PurchaseFlagsRead(purchase);
    StringsRoundTrip(purchase.products);
  }

  lemma UnfetchedProductRoundTrip(product: UnfetchedProduct)
    ensures DecodeUnfetchedProduct(UnfetchedProductToDictionary(product)) == Some(product)
  {
  }

  lemma OneTimeOfferRoundTrip(offer: OneTimePurchaseOfferDetails)
    ensures DecodeOneTimeOffer(OneTimeOfferToDict(offer)) == Some(offer)
  {
  }

  lemma InstallmentRoundTrip(plan: Option<InstallmentPlanDetails>)
    ensures DecodeInstallment(InstallmentToValue(plan)) == Some(plan)
  {
  }

  lemma PricingPhaseRoundTrip(phase: PricingPhase)
    ensures DecodePricingPhase(PricingPhaseDictionary(phase)) == Some(phase)
  {
  }

  /** The scalar entries of an offer dictionary, as a reader sees them. */
  lemma OfferScalarsRead(offer: SubscriptionOfferDetails)
    ensures var m := SubscriptionOfferDictionary(offer).entries;
      && StringAt(m, "base_plan_id") == Some(offer.basePlanId)
      && NullableStringAt(m, "offer_id") == Some(offer.offerId)
      && StringAt(m, "offer_token") == Some(offer.offerToken)
  {
  }

  /** The nested entries of an offer dictionary, as a reader sees them. */
  lemma OfferNestedRead(offer: SubscriptionOfferDetails)
    ensures var m := SubscriptionOfferDictionary(offer).entries;
      && ValueAt(m, "installment_plan_details") == Some(InstallmentToValue(offer.installmentPlanDetails))
      && ValueAt(m, "pricing_phases") == Some(ArrayOf(offer.pricingPhases, PricingPhaseDictionary))
      && ValueAt(m, "offer_tags") == Some(Strings(offer.offerTags))
  {
  }

  lemma OfferRoundTrip(offer: SubscriptionOfferDetails)
    ensures DecodeOffer(SubscriptionOfferDictionary(offer)) == Some(offer)
  {
    OfferScalarsRead(offer);
    OfferNestedRead(offer);
    InstallmentRoundTrip(offer.installmentPlanDetails);
    StringsRoundTrip(offer.offerTags);
    forall i | 0 <= i < |offer.pricingPhases|
      ensures DecodePricingPhase(PricingPhaseDictionary(offer.pricingPhases[i])) == Some(offer.pricingPhases[i])
    {
      PricingPhaseRoundTrip(offer.pricingPhases[i]);
    }
    ArrayOfRoundTrip(offer.pricingPhases, PricingPhaseDictionary, DecodePricingPhase);
  }

  /** The string entries of a product-details dictionary, as a reader sees them. */
  lemma ProductDetailsNamesRead(details: ProductDetails)
    ensures var m := ProductDetailsDictionary(details).entries;
      && StringAt(m, "product_id") == Some(details.productId)
      && StringAt(m, "title") == Some(details.title)
      && StringAt(m, "name") == Some(details.name)
      && StringAt(m, "description") == Some(details.description)
      && StringAt(m, "product_type") == Some(details.productType)
  {
  }

  /** The two offer entries of a product-details dictionary, as a reader sees them. */
  lemma ProductDetailsOffersRead(details: ProductDetails)
    ensures var m := ProductDetailsDictionary(details).entries;
      && ValueAt(m, "one_time_purchase_offer_details") ==
           Some(match details.oneTimePurchaseOfferDetails
                case None => Null
                case Some(offer) => OneTimeOfferToDict(offer))
      && ValueAt(m, "subscription_offer_details") ==
           Some(if HasOffers(details) then ArrayOf(details.subscriptionOfferDetails.value, SubscriptionOfferDictionary)
                else Null)
  {
  }

  /**
   * Every field of the product details, the one-time offer, each offer, its
   * installment plan and each pricing phase reads back unchanged, in order;
   * the only thing lost is whether a missing offer list was null or empty.
   */
  lemma ProductDetailsRoundTrip(details: ProductDetails)
    ensures DecodeProductDetails(ProductDetailsDictionary(details)) == Some(WithoutEmptyOffers(details))
  {
    ProductDetailsNamesRead(details);
    ProductDetailsOffersRead(details);
    if details.oneTimePurchaseOfferDetails.Some? {
      OneTimeOfferRoundTrip(details.oneTimePurchaseOfferDetails.value);
    }
    if HasOffers(details) {
      var offers := details.subscriptionOfferDetails.value;
      forall i | 0 <= i < |offers|
        ensures DecodeOffer(SubscriptionOfferDictionary(offers[i])) == Some(offers[i])
      {
        OfferRoundTrip(offers[i]);
      }
      ArrayOfRoundTrip(offers, SubscriptionOfferDictionary, DecodeOffer);
    }
  }

  /** The converted purchase list reads back as the purchase list, element for element. */
  lemma PurchaseListRoundTrip(purchases: seq<Purchase>)
    ensures AsArrayOf(ArrayOf(purchases, PurchaseToDictionary), DecodePurchase) == Some(purchases)
  {
    forall i | 0 <= i < |purchases|
      ensures DecodePurchase(PurchaseToDictionary(purchases[i])) == Some(purchases[i])
    {
      PurchaseRoundTrip(purchases[i]);
    }
    ArrayOfRoundTrip(purchases, PurchaseToDictionary, DecodePurchase);
  }

  /**
   * The converted product-details list reads back element for element, in
   * order, each record losing only the null-or-empty distinction of its offers.
   */
  lemma ProductDetailsListRoundTrip(detailsList: seq<ProductDetails>)
    ensures AsArrayOf(ArrayOf(detailsList, ProductDetailsDictionary), DecodeProductDetails)
         == Some(seq(|detailsList|, i requires 0 <= i < |detailsList| => WithoutEmptyOffers(detailsList[i])))
  {
    var converted := ArrayOf(detailsList, ProductDetailsDictionary).elems;
    var expected := seq(|detailsList|, i requires 0 <= i < |detailsList| => WithoutEmptyOffers(detailsList[i]));
    forall i | 0 <= i < |detailsList|
      ensures DecodeProductDetails(converted[i]) == Some(expected[i])
    {
      ProductDetailsRoundTrip(detailsList[i]);
    }
    DecodeAllInverts(expected, converted, DecodeProductDetails);
  }

  /** The converted unfetched-product list reads back as the list, element for element. */
  lemma UnfetchedProductListRoundTrip(productList: seq<UnfetchedProduct>)
    ensures AsArrayOf(ArrayOf(productList, UnfetchedProductToDictionary), DecodeUnfetchedProduct) == Some(productList)
  {
    forall i | 0 <= i < |productList|
      ensures DecodeUnfetchedProduct(UnfetchedProductToDictionary(productList[i])) == Some(productList[i])
    {
      UnfetchedProductRoundTrip(productList[i]);
    }
    ArrayOfRoundTrip(productList, UnfetchedProductToDictionary, DecodeUnfetchedProduct);
  }
}
