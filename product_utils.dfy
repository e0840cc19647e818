/**
 * The conversion utilities of the ProductDetails-based Java plugin
 * (`GooglePlayBillingUtils.java`): vendor purchases and product details become
 * Godot dictionaries. Dictionaries that are a plain run of `put`s are functions;
 * the loops that fill arrays and lists are methods proved against those
 * functions. Each dictionary format has a reader, and reading a converted
 * record back yields the record: no field is lost or altered.
 */
module ProductBillingUtils {
  import opened GodotValues
  import opened BillingTypes

  /** `ProductDetails.SubscriptionOfferDetails`, as far as this converter reads it. */
  datatype SubscriptionOfferDetails = SubscriptionOfferDetails(
    offerToken: string,
    offerTags: seq<string>,
    pricingPhases: seq<PricingPhase>)

  /** `ProductDetails`, as far as this plugin reads it; both offer fields may be null. */
  datatype ProductDetails = ProductDetails(
    productId: string,
    title: string,
    description: string,
    productType: string,
    oneTimePurchaseOfferDetails: Option<OneTimePurchaseOfferDetails>,
    subscriptionOfferDetails: Option<seq<SubscriptionOfferDetails>>)

  /** The subscription offers are converted only when the list is non-null and non-empty. */
  predicate HasOffers(d: ProductDetails)
  {
    d.subscriptionOfferDetails.Some? && |d.subscriptionOfferDetails.value| > 0
  }

  const PurchaseKeys: set<string> := {
    "original_json", "order_id", "package_name", "purchase_state", "purchase_time",
    "purchase_token", "quantity", "signature", "products", "is_acknowledged", "is_auto_renewing"}

  const ProductDetailsBaseKeys: set<string> := {"id", "title", "description", "type"}

  /** `convertPurchaseToDictionary`: one key per field, each copied unchanged. */
  function ConvertPurchaseToDictionary(purchase: Purchase): Value
  {
    D(map[
      "original_json" := S(purchase.originalJson),
      "order_id" := OrNull(purchase.orderId),
      "package_name" := S(purchase.packageName),
      "purchase_state" := I(purchase.purchaseState),
      "purchase_time" := I(purchase.purchaseTime),
      "purchase_token" := S(purchase.purchaseToken),
      "quantity" := I(purchase.quantity),
      "signature" := S(purchase.signature),
      "products" := Strings(purchase.products),
      "is_acknowledged" := B(purchase.isAcknowledged),
      "is_auto_renewing" := B(purchase.isAutoRenewing)])
  }

  /** The `one_time_purchase_details` dictionary. */
  function OneTimeOfferDictionary(offer: OneTimePurchaseOfferDetails): Value
  {
    D(map[
      "formatted_price" := S(offer.formattedPrice),
      "price_amount_micros" := I(offer.priceAmountMicros),
      "price_currency_code" := S(offer.priceCurrencyCode)])
  }

  /** One entry of `pricing_phases`. */
  function PricingPhaseDictionary(phase: PricingPhase): Value
  {
    D(map[
      "billing_cycle_count" := I(phase.billingCycleCount),
      "billing_period" := S(phase.billingPeriod),
      "formatted_price" := S(phase.formattedPrice),
      "price_amount_micros" := I(phase.priceAmountMicros),
      "price_currency_code" := S(phase.priceCurrencyCode),
      "recurrence_mode" := I(phase.recurrenceMode)])
  }

  /** One entry of `subscription_offer_details`: token, tags and one dictionary per pricing phase. */
  function OfferDictionary(offer: SubscriptionOfferDetails): Value
  {
    D(map[
      "offer_token" := S(offer.offerToken),
      "offer_tags" := Strings(offer.offerTags),
      "pricing_phases" := ArrayOf(offer.pricingPhases, PricingPhaseDictionary)])
  }

  /** The dictionary `convertProductDetailsToDictionary` builds. */
  function ProductDetailsDictionary(details: ProductDetails): Value
  {
    var base := map[
      "id" := S(details.productId),
      "title" := S(details.title),
      "description" := S(details.description),
      "type" := S(details.productType)];
    var withOneTime :=
      match details.oneTimePurchaseOfferDetails
      case None => base
      case Some(offer) => base["one_time_purchase_details" := OneTimeOfferDictionary(offer)];
    D(if HasOffers(details)
      then withOneTime["subscription_offer_details" := ArrayOf(details.subscriptionOfferDetails.value, OfferDictionary)]
      else withOneTime)
  }

  /**
   * `convertProductDetailsToDictionary`: successive `put`s, a loop over the
   * offers and, inside it, a loop over each offer's pricing phases.
   */
  method ConvertProductDetailsToDictionary(details: ProductDetails) returns (dictionary: Value)
    ensures dictionary == ProductDetailsDictionary(details)
  {
    var dict: map<string, Value> := map[];
    dict := dict["id" := S(details.productId)];
    dict := dict["title" := S(details.title)];
    dict := dict["description" := S(details.description)];
    dict := dict["type" := S(details.productType)];

    if details.oneTimePurchaseOfferDetails.Some? {
      var offer := details.oneTimePurchaseOfferDetails.value;
      var oneTime: map<string, Value> := map[];
      oneTime := oneTime["formatted_price" := S(offer.formattedPrice)];
      oneTime := oneTime["price_amount_micros" := I(offer.priceAmountMicros)];
      oneTime := oneTime["price_currency_code" := S(offer.priceCurrencyCode)];
      dict := dict["one_time_purchase_details" := D(oneTime)];
    }

    if details.subscriptionOfferDetails.Some? && |details.subscriptionOfferDetails.value| > 0 {
      var offers := details.subscriptionOfferDetails.value;
      var offerList: seq<Value> := [];
      for i := 0 to |offers|
        invariant |offerList| == i
        invariant forall j :: 0 <= j < i ==> offerList[j] == OfferDictionary(offers[j])
      {
        var offer := offers[i];
        var offerDict: map<string, Value> := map[];
        offerDict := offerDict["offer_token" := S(offer.offerToken)];
        offerDict := offerDict["offer_tags" := Strings(offer.offerTags)];

        var phases := offer.pricingPhases;
        var phaseList: seq<Value> := [];
        for k := 0 to |phases|
          invariant |phaseList| == k
          invariant forall j :: 0 <= j < k ==> phaseList[j] == PricingPhaseDictionary(phases[j])
        {
          var phase := phases[k];
          var phaseDict: map<string, Value> := map[];
          phaseDict := phaseDict["billing_cycle_count" := I(phase.billingCycleCount)];
          phaseDict := phaseDict["billing_period" := S(phase.billingPeriod)];
          phaseDict := phaseDict["formatted_price" := S(phase.formattedPrice)];
          phaseDict := phaseDict["price_amount_micros" := I(phase.priceAmountMicros)];
          phaseDict := phaseDict["price_currency_code" := S(phase.priceCurrencyCode)];
          phaseDict := phaseDict["recurrence_mode" := I(phase.recurrenceMode)];
          phaseList := phaseList + [D(phaseDict)];
        }
        assert Arr(phaseList) == ArrayOf(phases, PricingPhaseDictionary);

        offerDict := offerDict["pricing_phases" := Arr(phaseList)];
        offerList := offerList + [D(offerDict)];
      }
      assert Arr(offerList) == ArrayOf(offers, OfferDictionary);
      dict := dict["subscription_offer_details" := Arr(offerList)];
    }
    dictionary := D(dict);
  }

  /** `convertPurchaseListToDictionaryObjectArray`: one dictionary per purchase, by index. */
  method ConvertPurchaseListToDictionaryObjectArray(purchases: seq<Purchase>) returns (objects: array<Value>)
    ensures objects.Length == |purchases|
    ensures forall i :: 0 <= i < |purchases| ==> objects[i] == ConvertPurchaseToDictionary(purchases[i])
  {
    objects := new Value[|purchases|](_ => Null);
    for i := 0 to |purchases|
      invariant forall j :: 0 <= j < i ==> objects[j] == ConvertPurchaseToDictionary(purchases[j])
    {
      objects[i] := ConvertPurchaseToDictionary(purchases[i]);
    }
  }

  /** `convertProductDetailsListToDictionaryObjectArray`: one dictionary per product, by index. */
  method ConvertProductDetailsListToDictionaryObjectArray(productDetails: seq<ProductDetails>) returns (objects: array<Value>)
    ensures objects.Length == |productDetails|
    ensures forall i :: 0 <= i < |productDetails| ==> objects[i] == ProductDetailsDictionary(productDetails[i])
  {
    objects := new Value[|productDetails|](_ => Null);
    for i := 0 to |productDetails|
      invariant forall j :: 0 <= j < i ==> objects[j] == ProductDetailsDictionary(productDetails[j])
    {
      objects[i] := ConvertProductDetailsToDictionary(productDetails[i]);
    }
  }

  // Shapes: which keys each dictionary has and what the optional entries hold.

  /** A purchase dictionary has exactly eleven keys; `products` is the purchase's products in order. */
  lemma PurchaseDictionaryShape(purchase: Purchase)
    ensures var v := ConvertPurchaseToDictionary(purchase);
      && v.D? && v.entries.Keys == PurchaseKeys
      && v.entries["products"] == Strings(purchase.products)
  {
  }

  /** An offer dictionary: its token, its tags in order, and one dictionary per pricing phase, in order. */
  lemma OfferDictionaryShape(offer: SubscriptionOfferDetails)
    ensures var v := OfferDictionary(offer);
      && v.D? && v.entries.Keys == {"offer_token", "offer_tags", "pricing_phases"}
      && v.entries["offer_tags"] == Strings(offer.offerTags)
      && v.entries["pricing_phases"] == ArrayOf(offer.pricingPhases, PricingPhaseDictionary)
  {
  }

  /**
   * The optional entries of a product-details dictionary are omitted, not set
   * to null: `one_time_purchase_details` is there iff the one-time offer is
   * non-null and then holds its three price fields; `subscription_offer_details`
   * is there iff the offer list is non-null and non-empty and then holds one
   * dictionary per offer, in order.
   */
  lemma ProductDetailsDictionaryShape(details: ProductDetails)
    ensures var v := ProductDetailsDictionary(details);
      && v.D?
      && v.entries.Keys == ProductDetailsBaseKeys
           + (if details.oneTimePurchaseOfferDetails.Some? then {"one_time_purchase_details"} else {})
           + (if HasOffers(details) then {"subscription_offer_details"} else {})
      && (details.oneTimePurchaseOfferDetails.Some? ==>
            v.entries["one_time_purchase_details"] == OneTimeOfferDictionary(details.oneTimePurchaseOfferDetails.value))
      && (HasOffers(details) ==>
            v.entries["subscription_offer_details"] == ArrayOf(details.subscriptionOfferDetails.value, OfferDictionary))
  {
  }

  // Readers of the dictionaries above.

  function DecodePurchase(v: Value): Option<Purchase>
  {
    var m :- AsDict(v);
    var originalJson :- StringAt(m, "original_json");
    var orderId :- NullableStringAt(m, "order_id");
    var packageName :- StringAt(m, "package_name");
    var purchaseState :- IntAt(m, "purchase_state");
    var purchaseTime :- IntAt(m, "purchase_time");
    var purchaseToken :- StringAt(m, "purchase_token");
    var quantity :- IntAt(m, "quantity");
    var signature :- StringAt(m, "signature");
    var products :- StringsAt(m, "products");
    var isAcknowledged :- BoolAt(m, "is_acknowledged");
    var isAutoRenewing :- BoolAt(m, "is_auto_renewing");
    Some(Purchase(originalJson, orderId, packageName, purchaseState, purchaseTime, purchaseToken,
                  quantity, signature, products, isAcknowledged, isAutoRenewing))
  }

  function DecodeOneTimeOffer(v: Value): Option<OneTimePurchaseOfferDetails>
  {
    var m :- AsDict(v);
    var formattedPrice :- StringAt(m, "formatted_price");
    var priceAmountMicros :- IntAt(m, "price_amount_micros");
    var priceCurrencyCode :- StringAt(m, "price_currency_code");
    Some(OneTimePurchaseOfferDetails(formattedPrice, priceAmountMicros, priceCurrencyCode))
  }

  function DecodePricingPhase(v: Value): Option<PricingPhase>
  {
    var m :- AsDict(v);
    var billingCycleCount :- IntAt(m, "billing_cycle_count");
    var billingPeriod :- StringAt(m, "billing_period");
    var formattedPrice :- StringAt(m, "formatted_price");
    var priceAmountMicros :- IntAt(m, "price_amount_micros");
    var priceCurrencyCode :- StringAt(m, "price_currency_code");
    var recurrenceMode :- IntAt(m, "recurrence_mode");
    Some(PricingPhase(billingCycleCount, billingPeriod, formattedPrice, priceAmountMicros,
                      priceCurrencyCode, recurrenceMode))
  }

  function DecodeOffer(v: Value): Option<SubscriptionOfferDetails>
  {
    var m :- AsDict(v);
    var offerToken :- StringAt(m, "offer_token");
    var offerTags :- StringsAt(m, "offer_tags");
    var phases :- ValueAt(m, "pricing_phases");
    var pricingPhases :- AsArrayOf(phases, DecodePricingPhase);
    Some(SubscriptionOfferDetails(offerToken, offerTags, pricingPhases))
  }

  /** An absent optional entry reads as null. */
  function DecodeProductDetails(v: Value): Option<ProductDetails>
  {
    var m :- AsDict(v);
    var productId :- StringAt(m, "id");
    var title :- StringAt(m, "title");
    var description :- StringAt(m, "description");
    var productType :- StringAt(m, "type");
    var oneTime :-
      if "one_time_purchase_details" in m then
        var o :- DecodeOneTimeOffer(m["one_time_purchase_details"]); Some(Some(o))
      else Some(None);
    var offers :-
      if "subscription_offer_details" in m then
        var os :- AsArrayOf(m["subscription_offer_details"], DecodeOffer); Some(Some(os))
      else Some(None);
    Some(ProductDetails(productId, title, description, productType, oneTime, offers))
  }

  /** Product details as they survive conversion: an empty offer list is indistinguishable from null. */
  function WithoutEmptyOffers(d: ProductDetails): ProductDetails
  {
    if HasOffers(d) then d else d.(subscriptionOfferDetails := None)
  }

  // Round trips: reading a converted record back gives the record.

  /** The identifying entries of a purchase dictionary, as a reader sees them. */
  lemma PurchaseIdentityRead(purchase: Purchase)
    ensures var m := ConvertPurchaseToDictionary(purchase).entries;
      && StringAt(m, "original_json") == Some(purchase.originalJson)
      && NullableStringAt(m, "order_id") == Some(purchase.orderId)
      && StringAt(m, "package_name") == Some(purchase.packageName)
      && StringAt(m, "purchase_token") == Some(purchase.purchaseToken)
  {
  }

  /** The state entries of a purchase dictionary, as a reader sees them. */
  lemma PurchaseStateRead(purchase: Purchase)
    ensures var m := ConvertPurchaseToDictionary(purchase).entries;
      && IntAt(m, "purchase_state") == Some(purchase.purchaseState)
      && IntAt(m, "purchase_time") == Some(purchase.purchaseTime)
      && IntAt(m, "quantity") == Some(purchase.quantity)
      && StringAt(m, "signature") == Some(purchase.signature)
  {
  }

  /** The flags and the product list of a purchase dictionary, as a reader sees them. */
  lemma PurchaseFlagsRead(purchase: Purchase)
    ensures var m := ConvertPurchaseToDictionary(purchase).entries;
      && BoolAt(m, "is_acknowledged") == Some(purchase.isAcknowledged)
      && BoolAt(m, "is_auto_renewing") == Some(purchase.isAutoRenewing)
      && ValueAt(m, "products") == Some(Strings(purchase.products))
  {
  }

  lemma PurchaseRoundTrip(purchase: Purchase)
    ensures DecodePurchase(ConvertPurchaseToDictionary(purchase)) == Some(purchase)
  {
    PurchaseIdentityRead(purchase);
    PurchaseStateRead(purchase);
    PurchaseFlagsRead(purchase);
    StringsRoundTrip(purchase.products);
  }

  lemma OneTimeOfferRoundTrip(offer: OneTimePurchaseOfferDetails)
    ensures DecodeOneTimeOffer(OneTimeOfferDictionary(offer)) == Some(offer)
  {
  }

  lemma PricingPhaseRoundTrip(phase: PricingPhase)
    ensures DecodePricingPhase(PricingPhaseDictionary(phase)) == Some(phase)
  {
  }

  lemma OfferRoundTrip(offer: SubscriptionOfferDetails)
    ensures DecodeOffer(OfferDictionary(offer)) == Some(offer)
  {
    StringsRoundTrip(offer.offerTags);
    forall i | 0 <= i < |offer.pricingPhases|
      ensures DecodePricingPhase(PricingPhaseDictionary(offer.pricingPhases[i])) == Some(offer.pricingPhases[i])
    {
      PricingPhaseRoundTrip(offer.pricingPhases[i]);
    }
    ArrayOfRoundTrip(offer.pricingPhases, PricingPhaseDictionary, DecodePricingPhase);
  }

  /** The string entries of a product-details dictionary, as a reader sees them. */
  lemma ProductDetailsNamesRead(details: ProductDetails)
    ensures var m := ProductDetailsDictionary(details).entries;
      && StringAt(m, "id") == Some(details.productId)
      && StringAt(m, "title") == Some(details.title)
      && StringAt(m, "description") == Some(details.description)
      && StringAt(m, "type") == Some(details.productType)
  {
  }

  /** The optional entries of a product-details dictionary, as a reader sees them. */
  lemma ProductDetailsOffersRead(details: ProductDetails)
    ensures var m := ProductDetailsDictionary(details).entries;
      && ("one_time_purchase_details" in m <==> details.oneTimePurchaseOfferDetails.Some?)
      && (details.oneTimePurchaseOfferDetails.Some? ==>
            m["one_time_purchase_details"] == OneTimeOfferDictionary(details.oneTimePurchaseOfferDetails.value))
      && ("subscription_offer_details" in m <==> HasOffers(details))
      && (HasOffers(details) ==>
            m["subscription_offer_details"] == ArrayOf(details.subscriptionOfferDetails.value, OfferDictionary))
  {
  }

  /**
   * Every field of the product details, the one-time offer, each subscription
   * offer and each pricing phase reads back unchanged, in order; the only
   * thing lost is whether a missing offer list was null or empty.
   */
  lemma ProductDetailsRoundTrip(details: ProductDetails)
    ensures DecodeProductDetails(ProductDetailsDictionary(details)) == Some(WithoutEmptyOffers(details))
  {
    ProductDetailsNamesRead(details);
    ProductDetailsOffersRead(details);
    if details.oneTimePurchaseOfferDetails.Some? {
      OneTimeOfferRoundTrip(details.oneTimePurchaseOfferDetails.value);
    }
    if HasOffers(details) {
      var offers := details.subscriptionOfferDetails.value;
      forall i | 0 <= i < |offers|
        ensures DecodeOffer(OfferDictionary(offers[i])) == Some(offers[i])
      {
        OfferRoundTrip(offers[i]);
      }
      ArrayOfRoundTrip(offers, OfferDictionary, DecodeOffer);
    }
  }

  /** The converted purchase list reads back as the purchase list, element for element. */
  lemma PurchaseListRoundTrip(purchases: seq<Purchase>)
    ensures AsArrayOf(ArrayOf(purchases, ConvertPurchaseToDictionary), DecodePurchase) == Some(purchases)
  {
    forall i | 0 <= i < |purchases|
      ensures DecodePurchase(ConvertPurchaseToDictionary(purchases[i])) == Some(purchases[i])
    {
      PurchaseRoundTrip(purchases[i]);
    }
    ArrayOfRoundTrip(purchases, ConvertPurchaseToDictionary, DecodePurchase);
  }

  /**
   * The converted product-details list reads back element for element, in
   * order, each record losing only the null-or-empty distinction of its offers.
   */
  lemma ProductDetailsListRoundTrip(detailsList: seq<ProductDetails>)
    ensures AsArrayOf(ArrayOf(detailsList, ProductDetailsDictionary), DecodeProductDetails)
         == Some(seq(|detailsList|, i requires 0 <= i < |detailsList| => WithoutEmptyOffers(detailsList[i])))
  {
    var converted := ArrayOf(detailsList, ProductDetailsDictionary).elems;
    var expected := seq(|detailsList|, i requires 0 <= i < |detailsList| => WithoutEmptyOffers(detailsList[i]));
    forall i | 0 <= i < |detailsList|
      ensures DecodeProductDetails(converted[i]) == Some(expected[i])
    {
      ProductDetailsRoundTrip(detailsList[i]);
    }
    DecodeAllInverts(expected, converted, DecodeProductDetails);
  }
}
