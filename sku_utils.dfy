/**
 * The conversion utilities of the SkuDetails-based Kotlin plugin
 * (`GooglePlayBillingUtils.kt`). A purchase dictionary carries `sku`, the first
 * entry of the purchase's sku list, next to the whole list; the Kotlin code
 * indexes that list without a check, so a purchase with no sku makes the
 * conversion throw, which is modelled as `None`.
 */
module SkuBillingUtils {
  import opened GodotValues

  /** The accessors of a SkuDetails-era vendor `Purchase` that the converter calls. */
  datatype Purchase = Purchase(
    orderId: string,
    packageName: string,
    purchaseState: int,
    purchaseTime: int,
    purchaseToken: string,
    quantity: int,
    signature: string,
    skus: seq<string>,
    isAcknowledged: bool,
    isAutoRenewing: bool)

  /** The accessors of a vendor `SkuDetails` that the converter calls. */
  datatype SkuDetails = SkuDetails(
    sku: string,
    title: string,
    description: string,
    price: string,
    priceCurrencyCode: string,
    priceAmountMicros: int,
    freeTrialPeriod: string,
    iconUrl: string,
    introductoryPrice: string,
    introductoryPriceAmountMicros: int,
    introductoryPriceCycles: int,
    introductoryPricePeriod: string,
    originalPrice: string,
    originalPriceAmountMicros: int,
    subscriptionPeriod: string,
    skuType: string)

  const PurchaseKeys: set<string> := {
    "order_id", "package_name", "purchase_state", "purchase_time", "purchase_token",
    "quantity", "signature", "sku", "skus", "is_acknowledged", "is_auto_renewing"}

  const SkuDetailsKeys: set<string> := {
    "sku", "title", "description", "price", "price_currency_code", "price_amount_micros",
    "free_trial_period", "icon_url", "introductory_price", "introductory_price_amount_micros",
    "introductory_price_cycles", "introductory_price_period", "original_price",
    "original_price_amount_micros", "subscription_period", "type"}

  /**
   * `convertPurchaseToDictionary`: fails (the `skus[0]` index throws) exactly
   * when the purchase has no sku; otherwise eleven keys, `sku` being the first
   * sku and `skus` all of them in order.
   */
  function ConvertPurchaseToDictionary(purchase: Purchase): (r: Option<Value>)
    ensures r.None? <==> purchase.skus == []
    ensures r.Some? ==> r.value.D? && r.value.entries.Keys == PurchaseKeys
    ensures r.Some? ==> r.value.entries["sku"] == S(purchase.skus[0])
    ensures r.Some? ==> r.value.entries["skus"] == Strings(purchase.skus)
  {
    if purchase.skus == [] then None
    else
      Some(D(map[
        "order_id" := S(purchase.orderId),
        "package_name" := S(purchase.packageName),
        "purchase_state" := I(purchase.purchaseState),
        "purchase_time" := I(purchase.purchaseTime),
        "purchase_token" := S(purchase.purchaseToken),
        "quantity" := I(purchase.quantity),
        "signature" := S(purchase.signature),
        "sku" := S(purchase.skus[0]),
        "skus" := Strings(purchase.skus),
        "is_acknowledged" := B(purchase.isAcknowledged),
        "is_auto_renewing" := B(purchase.isAutoRenewing)]))
  }

  /** `convertSkuDetailsToDictionary`: one key per field, each copied unchanged. */
  function ConvertSkuDetailsToDictionary(details: SkuDetails): Value
  {
    D(map[
      "sku" := S(details.sku),
      "title" := S(details.title),
      "description" := S(details.description),
      "price" := S(details.price),
      "price_currency_code" := S(details.priceCurrencyCode),
      "price_amount_micros" := I(details.priceAmountMicros),
      "free_trial_period" := S(details.freeTrialPeriod),
      "icon_url" := S(details.iconUrl),
      "introductory_price" := S(details.introductoryPrice),
      "introductory_price_amount_micros" := I(details.introductoryPriceAmountMicros),
      "introductory_price_cycles" := I(details.introductoryPriceCycles),
      "introductory_price_period" := S(details.introductoryPricePeriod),
      "original_price" := S(details.originalPrice),
      "original_price_amount_micros" := I(details.originalPriceAmountMicros),
      "subscription_period" := S(details.subscriptionPeriod),
      "type" := S(details.skuType)])
  }

  /**
   * The array `convertPurchaseListToDictionaryObjectArray` hands to the engine,
   * or `None` when converting one of the purchases throws.
   */
  function PurchaseListValue(purchases: seq<Purchase>): Option<Value>
  {
    if exists i :: 0 <= i < |purchases| && purchases[i].skus == [] then None
    else Some(Arr(seq(|purchases|, i requires 0 <= i < |purchases| && purchases[i].skus != [] =>
                                      ConvertPurchaseToDictionary(purchases[i]).value)))
  }

  /**
   * `convertPurchaseListToDictionaryObjectArray`: fills the array by index; the
   * first purchase without a sku aborts the whole conversion.
   */
  method ConvertPurchaseListToDictionaryObjectArray(purchases: seq<Purchase>) returns (r: Option<array<Value>>)
    ensures r.None? <==> exists i :: 0 <= i < |purchases| && purchases[i].skus == []
    ensures r.Some? ==> r.value.Length == |purchases|
    ensures r.Some? ==> forall i :: 0 <= i < |purchases| ==> ConvertPurchaseToDictionary(purchases[i]) == Some(r.value[i])
    ensures r.None? ==> PurchaseListValue(purchases) == None
    ensures r.Some? ==> PurchaseListValue(purchases) == Some(Arr(r.value[..]))
  {
    var objects := new Value[|purchases|](_ => Null);
    for i := 0 to |purchases|
      invariant forall j :: 0 <= j < i ==> ConvertPurchaseToDictionary(purchases[j]) == Some(objects[j])
    {
      var dictionary := ConvertPurchaseToDictionary(purchases[i]);
      if dictionary.None? {
        return None;
      }
      objects[i] := dictionary.value;
    }
    assert Arr(objects[..]) == PurchaseListValue(purchases).value;
    r := Some(objects);
  }

  /** `convertSkuDetailsListToDictionaryObjectArray`: one dictionary per sku, by index. */
  method ConvertSkuDetailsListToDictionaryObjectArray(skuDetails: seq<SkuDetails>) returns (objects: array<Value>)
    ensures objects.Length == |skuDetails|
    ensures forall i :: 0 <= i < |skuDetails| ==> objects[i] == ConvertSkuDetailsToDictionary(skuDetails[i])
  {
    objects := new Value[|skuDetails|](_ => Null);
    for i := 0 to |skuDetails|
      invariant forall j :: 0 <= j < i ==> objects[j] == ConvertSkuDetailsToDictionary(skuDetails[j])
    {
      objects[i] := ConvertSkuDetailsToDictionary(skuDetails[i]);
    }
  }

  // Readers of the dictionaries above.

  /** Reads a purchase dictionary; `sku` must agree with the first entry of `skus`. */
  function DecodePurchase(v: Value): Option<Purchase>
  {
    var m :- AsDict(v);
    var orderId :- StringAt(m, "order_id");
    var packageName :- StringAt(m, "package_name");
    var purchaseState :- IntAt(m, "purchase_state");
    var purchaseTime :- IntAt(m, "purchase_time");
    var purchaseToken :- StringAt(m, "purchase_token");
    var quantity :- IntAt(m, "quantity");
    var signature :- StringAt(m, "signature");
    var sku :- StringAt(m, "sku");
    var skus :- StringsAt(m, "skus");
    var isAcknowledged :- BoolAt(m, "is_acknowledged");
    var isAutoRenewing :- BoolAt(m, "is_auto_renewing");
    if skus != [] && skus[0] == sku then
      Some(Purchase(orderId, packageName, purchaseState, purchaseTime, purchaseToken,
                    quantity, signature, skus, isAcknowledged, isAutoRenewing))
    else None
  }

  function DecodeSkuDetails(v: Value): Option<SkuDetails>
  {
    var m :- AsDict(v);
    var sku :- StringAt(m, "sku");
    var title :- StringAt(m, "title");
    var description :- StringAt(m, "description");
    var price :- StringAt(m, "price");
    var priceCurrencyCode :- StringAt(m, "price_currency_code");
    var priceAmountMicros :- IntAt(m, "price_amount_micros");
    var freeTrialPeriod :- StringAt(m, "free_trial_period");
    var iconUrl :- StringAt(m, "icon_url");
    var introductoryPrice :- StringAt(m, "introductory_price");
    var introductoryPriceAmountMicros :- IntAt(m, "introductory_price_amount_micros");
    var introductoryPriceCycles :- IntAt(m, "introductory_price_cycles");
    var introductoryPricePeriod :- StringAt(m, "introductory_price_period");
    var originalPrice :- StringAt(m, "original_price");
    var originalPriceAmountMicros :- IntAt(m, "original_price_amount_micros");
    var subscriptionPeriod :- StringAt(m, "subscription_period");
    var skuType :- StringAt(m, "type");
    Some(SkuDetails(sku, title, description, price, priceCurrencyCode, priceAmountMicros,
                    freeTrialPeriod, iconUrl, introductoryPrice, introductoryPriceAmountMicros,
                    introductoryPriceCycles, introductoryPricePeriod, originalPrice,
                    originalPriceAmountMicros, subscriptionPeriod, skuType))
  }

  // Round trips: reading a converted record back gives the record.

  /** A purchase with at least one sku converts, and reads back unchanged (the sku list in order). */
  lemma PurchaseRoundTrip(purchase: Purchase)
    requires purchase.skus != []
    ensures ConvertPurchaseToDictionary(purchase).Some?
    ensures DecodePurchase(ConvertPurchaseToDictionary(purchase).value) == Some(purchase)
  {
    StringsRoundTrip(purchase.skus);
  }

  /** A sku-details dictionary has exactly the sixteen listed keys. */
  lemma SkuDetailsDictionaryKeys(details: SkuDetails)
    ensures ConvertSkuDetailsToDictionary(details).D?
    ensures ConvertSkuDetailsToDictionary(details).entries.Keys == SkuDetailsKeys
  {
  }

  // The sixteen lookups below are split four ways to keep each proof small.

  lemma SkuDetailsNamesRead(details: SkuDetails)
    ensures var m := ConvertSkuDetailsToDictionary(details).entries;
      && StringAt(m, "sku") == Some(details.sku)
      && StringAt(m, "title") == Some(details.title)
      && StringAt(m, "description") == Some(details.description)
      && StringAt(m, "type") == Some(details.skuType)
  {
  }

  lemma SkuDetailsPriceRead(details: SkuDetails)
    ensures var m := ConvertSkuDetailsToDictionary(details).entries;
      && StringAt(m, "price") == Some(details.price)
      && StringAt(m, "price_currency_code") == Some(details.priceCurrencyCode)
      && IntAt(m, "price_amount_micros") == Some(details.priceAmountMicros)
      && StringAt(m, "icon_url") == Some(details.iconUrl)
  {
  }

  lemma SkuDetailsIntroductoryRead(details: SkuDetails)
    ensures var m := ConvertSkuDetailsToDictionary(details).entries;
      && StringAt(m, "introductory_price") == Some(details.introductoryPrice)
      && IntAt(m, "introductory_price_amount_micros") == Some(details.introductoryPriceAmountMicros)
      && IntAt(m, "introductory_price_cycles") == Some(details.introductoryPriceCycles)
      && StringAt(m, "introductory_price_period") == Some(details.introductoryPricePeriod)
  {
  }

  lemma SkuDetailsPeriodsRead(details: SkuDetails)
    ensures var m := ConvertSkuDetailsToDictionary(details).entries;
      && StringAt(m, "free_trial_period") == Some(details.freeTrialPeriod)
      && StringAt(m, "original_price") == Some(details.originalPrice)
      && IntAt(m, "original_price_amount_micros") == Some(details.originalPriceAmountMicros)
      && StringAt(m, "subscription_period") == Some(details.subscriptionPeriod)
  {
  }

  /** Every sku-details field reads back unchanged; the `*_micros` integers are not altered. */
  lemma SkuDetailsRoundTrip(details: SkuDetails)
    ensures DecodeSkuDetails(ConvertSkuDetailsToDictionary(details)) == Some(details)
  {
    SkuDetailsNamesRead(details);
    SkuDetailsPriceRead(details);
    SkuDetailsIntroductoryRead(details);
    SkuDetailsPeriodsRead(details);
  }

  /** The converted sku-details list reads back as the list, element for element. */
  lemma SkuDetailsListRoundTrip(skuDetails: seq<SkuDetails>)
    ensures AsArrayOf(ArrayOf(skuDetails, ConvertSkuDetailsToDictionary), DecodeSkuDetails) == Some(skuDetails)
  {
    forall i | 0 <= i < |skuDetails|
      ensures DecodeSkuDetails(ConvertSkuDetailsToDictionary(skuDetails[i])) == Some(skuDetails[i])
    {
      SkuDetailsRoundTrip(skuDetails[i]);
    }
    ArrayOfRoundTrip(skuDetails, ConvertSkuDetailsToDictionary, DecodeSkuDetails);
  }

  /** A purchase list that converts reads back as the purchase list, element for element. */
  lemma PurchaseListRoundTrip(purchases: seq<Purchase>)
    requires PurchaseListValue(purchases).Some?
    ensures AsArrayOf(PurchaseListValue(purchases).value, DecodePurchase) == Some(purchases)
  {
    var v := PurchaseListValue(purchases).value;
    forall i | 0 <= i < |purchases|
      ensures DecodePurchase(v.elems[i]) == Some(purchases[i])
    {
      PurchaseRoundTrip(purchases[i]);
    }
    DecodeAllInverts(purchases, v.elems, DecodePurchase);
  }
}
