# Godot Google Play Billing plugin: a Dafny model

This project models the local logic of the Godot plugin that connects a game
script to the Google Play Billing client. The plugin has two layers.

- **The billing adapters.** Two versions exist: one on the ProductDetails API
  (`GodotGooglePlayBilling.java`) and an older one on the SkuDetails API
  (`GodotGooglePlayBilling.kt`). Each adapter caches the details the store
  returned and holds two obfuscated ids. It refuses purchases for products it
  has not cached, builds the purchase flow, and turns each vendor answer into a
  result dictionary or a signal. Each adapter is a class (`ProductBilling`,
  `SkuBilling`). Each modelled callback is a method. The product and sku
  queries also have a request method that logs the query. Vendor results are
  parameters. Emitted signals, launched flows and issued queries are ghost
  logs.
- **The converters.** Three variants turn vendor records into engine values:
  the Java and Kotlin utilities beside each adapter
  (`ProductBillingUtils`, `SkuBillingUtils`) and the newer `Utils.kt` (`Utils`).
  Engine values are a `Value` tree of null, integers, booleans, strings,
  arrays and dictionaries (`GodotValues`). The converters that fill arrays or
  lists in loops are methods, proved against functions that describe their
  result. Each format has a reader, and reading a converted record back gives
  the record: no field is lost or altered. The only exception is that a null
  and an empty offer list read back the same.

Shared pieces:
- `BillingTypes`: the vendor constants, the `BillingResult` type, the shared
  vendor records, and the result-dictionary interface
  (`status`, `response_code`, `debug_message`).
- `DetailsCache`: the cache update. One `put` per returned record, last
  write wins.

A product without subscription offers does not get an empty list: the Java
converter omits `subscription_offer_details` and `Utils.kt` stores null.
The Java adapter registers `product_details_query_error` with a string-array
argument, but it emits the returned `ProductDetails` list. The model carries
that list. The Kotlin adapter declares the obfuscated ids but nothing assigns
them. The model proves that its purchase flows never carry them.

## Model

| member | source | states |
|---|---|---|
| `BillingTypes.PreconditionFailure` | godot-google-play-billing/src/main/java/org/godotengine/godot/plugin/googleplaybilling/GodotGooglePlayBilling.java:224-230 | A locally detected failure is exactly `{status: 1, response_code: null, debug_message}`; a script reads it as a failure with no vendor code and that message. |
| `BillingTypes.ResponseDictionary` | godot-google-play-billing/src/main/java/org/godotengine/godot/plugin/googleplaybilling/GodotGooglePlayBilling.java:268-277 | OK gives exactly `{status: 0}`; any other code gives exactly `status` 1 with `response_code` and `debug_message`; a script reads back the vendor outcome. |
| `BillingTypes.PurchasesQueryDictionary` | godot-google-play-billing/src/main/java/org/godotengine/godot/plugin/googleplaybilling/GodotGooglePlayBilling.java:121-130 | OK gives exactly `status` 0 plus `purchases` (the converted list, passed through); otherwise the failure triple with the vendor code and message; a script reads back the vendor outcome. |
| `DetailsCache.PutAll` | godot-google-play-billing/src/main/java/org/godotengine/godot/plugin/googleplaybilling/GodotGooglePlayBilling.java:151-153 | The cache after one `put` per returned record, in list order; what it holds is stated by the four lemmas below. |
| `DetailsCache.PutAllKeys` | godot-google-play-billing/src/main/java/org/godotengine/godot/plugin/googleplaybilling/GodotGooglePlayBilling.java:151-153 | After the `put` loop the cached ids are the old ids plus every returned id. |
| `DetailsCache.PutAllLastWins` | godot-google-play-billing/src/main/java/org/godotengine/godot/plugin/googleplaybilling/GodotGooglePlayBilling.java:151-153 | A returned record that no later record shares its id with is what the cache holds for that id: last write wins. |
| `DetailsCache.PutAllUntouched` | godot-google-play-billing/src/main/java/org/godotengine/godot/plugin/googleplaybilling/GodotGooglePlayBilling.java:151-153 | An id no returned record carries keeps its old entry, or stays absent. |
| `DetailsCache.PutAllKeyed` | godot-google-play-billing/src/main/java/org/godotengine/godot/plugin/googleplaybilling/GodotGooglePlayBilling.java:151-153 | If every cached record sits under its own id before the loop, that still holds after it. |
| `ProductBilling.BuildQueryProducts` | godot-google-play-billing/src/main/java/org/godotengine/godot/plugin/googleplaybilling/GodotGooglePlayBilling.java:137-141 | One query product per requested id, same length and order, all with the requested type. |
| `ProductBilling.BuildBillingFlowParams` | godot-google-play-billing/src/main/java/org/godotengine/godot/plugin/googleplaybilling/GodotGooglePlayBilling.java:237-265 | The flow holds exactly one product with the token of its first subscription offer, or no token when the offer list is null or empty. Each obfuscated id is set iff it is non-empty. Update params are set iff the old token is non-empty and the mode is not UNKNOWN, and then they carry that token and mode. |
| `ProductBilling.GodotGooglePlayBilling.constructor` | godot-google-play-billing/src/main/java/org/godotengine/godot/plugin/googleplaybilling/GodotGooglePlayBilling.java:79-90 | Empty cache, flag false, empty ids, nothing emitted or launched. |
| `ProductBilling.GodotGooglePlayBilling.StartConnection` | godot-google-play-billing/src/main/java/org/godotengine/godot/plugin/googleplaybilling/GodotGooglePlayBilling.java:93-96 | Sets the connection flag; no other method writes it, so it is never reset. |
| `ProductBilling.GodotGooglePlayBilling.OnQueryPurchasesResponse` | godot-google-play-billing/src/main/java/org/godotengine/godot/plugin/googleplaybilling/GodotGooglePlayBilling.java:119-131 | Emits exactly one `query_purchases_response`, carrying the result dictionary with the converted purchase list. |
| `ProductBilling.GodotGooglePlayBilling.QuerySkuDetails` | godot-google-play-billing/src/main/java/org/godotengine/godot/plugin/googleplaybilling/GodotGooglePlayBilling.java:136-147 | Issues one product query: one entry per requested id, in order, with the given type. |
| `ProductBilling.GodotGooglePlayBilling.CacheProductDetails` | godot-google-play-billing/src/main/java/org/godotengine/godot/plugin/googleplaybilling/GodotGooglePlayBilling.java:151-153 | The cache becomes the old cache with one `put` per record, in list order, and stays keyed by product id. |
| `ProductBilling.GodotGooglePlayBilling.OnProductDetailsResponse` | godot-google-play-billing/src/main/java/org/godotengine/godot/plugin/googleplaybilling/GodotGooglePlayBilling.java:149-157 | On OK: the cache is updated by the `put` loop and the converted list is emitted. Otherwise: the cache is unchanged and `product_details_query_error` carries the code, the message and the returned list. |
| `ProductBilling.GodotGooglePlayBilling.OnAcknowledgePurchaseResponse` | godot-google-play-billing/src/main/java/org/godotengine/godot/plugin/googleplaybilling/GodotGooglePlayBilling.java:170-176 | `purchase_acknowledged` with the token on OK, else the error with code, message and token. |
| `ProductBilling.GodotGooglePlayBilling.OnConsumeResponse` | godot-google-play-billing/src/main/java/org/godotengine/godot/plugin/googleplaybilling/GodotGooglePlayBilling.java:188-194 | `purchase_consumed` with the callback token on OK, else the error with code, message and token. |
| `ProductBilling.GodotGooglePlayBilling.OnBillingSetupFinished` | godot-google-play-billing/src/main/java/org/godotengine/godot/plugin/googleplaybilling/GodotGooglePlayBilling.java:199-205 | `connected` on OK, else `connect_error` with code and message. |
| `ProductBilling.GodotGooglePlayBilling.OnBillingServiceDisconnected` | godot-google-play-billing/src/main/java/org/godotengine/godot/plugin/googleplaybilling/GodotGooglePlayBilling.java:208-210 | Emits `disconnected`. |
| `ProductBilling.GodotGooglePlayBilling.Purchase` | godot-google-play-billing/src/main/java/org/godotengine/godot/plugin/googleplaybilling/GodotGooglePlayBilling.java:213-216 | The purchase gate and result mapping of `purchaseInternal`, with empty old token and UNKNOWN mode, so no update params are ever attached. |
| `ProductBilling.GodotGooglePlayBilling.UpdateSubscription` | godot-google-play-billing/src/main/java/org/godotengine/godot/plugin/googleplaybilling/GodotGooglePlayBilling.java:219-221 | The purchase gate and result mapping of `purchaseInternal`, with the caller's old token and mode. |
| `ProductBilling.GodotGooglePlayBilling.PurchaseInternal` | godot-google-play-billing/src/main/java/org/godotengine/godot/plugin/googleplaybilling/GodotGooglePlayBilling.java:223-278 | Uncached id: the fixed failure dictionary, no flow launched. Cached id: exactly one flow is appended; it follows the flow rules for the cached details of that very product and the current ids; the result is the launch-result dictionary. |
| `ProductBilling.GodotGooglePlayBilling.SetObfuscatedAccountId` | godot-google-play-billing/src/main/java/org/godotengine/godot/plugin/googleplaybilling/GodotGooglePlayBilling.java:281-283 | The account id becomes the argument; nothing else changes. |
| `ProductBilling.GodotGooglePlayBilling.SetObfuscatedProfileId` | godot-google-play-billing/src/main/java/org/godotengine/godot/plugin/googleplaybilling/GodotGooglePlayBilling.java:286-288 | The profile id becomes the argument; nothing else changes. |
| `ProductBilling.GodotGooglePlayBilling.OnPurchasesUpdated` | godot-google-play-billing/src/main/java/org/godotengine/godot/plugin/googleplaybilling/GodotGooglePlayBilling.java:291-297 | `purchases_updated` with the converted list iff the code is OK and the list is non-null; otherwise `purchase_error` with code and message. |
| `ProductBilling.GodotGooglePlayBilling.OnPriceChangeConfirmationResult` | godot-google-play-billing/src/main/java/org/godotengine/godot/plugin/googleplaybilling/GodotGooglePlayBilling.java:300-302 | Emits `price_change_acknowledged` with the code. |
| `ProductBilling.GodotGooglePlayBilling.OnMainResume` | godot-google-play-billing/src/main/java/org/godotengine/godot/plugin/googleplaybilling/GodotGooglePlayBilling.java:305-309 | Emits `billing_resume` iff `startConnection` was called. |
| `ProductBilling.PurchaseBeforeAnyQuery` | godot-google-play-billing/src/main/java/org/godotengine/godot/plugin/googleplaybilling/GodotGooglePlayBilling.java:224-230 | On a fresh adapter every purchase fails locally with the fixed message. |
| `ProductBilling.PurchaseAfterQuery` | godot-google-play-billing/src/main/java/org/godotengine/godot/plugin/googleplaybilling/GodotGooglePlayBilling.java:150-153 | After any OK query, purchasing any product of the returned list reports the vendor launch result, read back as that outcome. |
| `ProductBilling.PurchaseAfterFailedQuery` | godot-google-play-billing/src/main/java/org/godotengine/godot/plugin/googleplaybilling/GodotGooglePlayBilling.java:155-157 | After a failed query nothing is cached, so a purchase still fails locally. |
| `SkuBilling.BuildBillingFlowParams` | godot-google-play-billing/src/main/java/org/godotengine/godot/plugin/googleplaybilling/GodotGooglePlayBilling.kt:214-228 | The flow holds the sku details. Each obfuscated id is set iff non-empty. Update params are set iff the old token is non-empty and the mode is not UNKNOWN, and then they carry that token and mode. |
| `SkuBilling.GodotGooglePlayBilling.constructor` | godot-google-play-billing/src/main/java/org/godotengine/godot/plugin/googleplaybilling/GodotGooglePlayBilling.kt:52-54 | Empty cache, empty ids, nothing emitted or launched. |
| `SkuBilling.GodotGooglePlayBilling.OnQueryPurchasesResponse` | godot-google-play-billing/src/main/java/org/godotengine/godot/plugin/googleplaybilling/GodotGooglePlayBilling.kt:78-89 | On OK, the result dictionary with the converted purchases, or no signal when the conversion throws. Otherwise, the failure triple. |
| `SkuBilling.GodotGooglePlayBilling.QuerySkuDetails` | godot-google-play-billing/src/main/java/org/godotengine/godot/plugin/googleplaybilling/GodotGooglePlayBilling.kt:93-98 | Issues one sku query for exactly the requested skus and type. |
| `SkuBilling.GodotGooglePlayBilling.CacheSkuDetails` | godot-google-play-billing/src/main/java/org/godotengine/godot/plugin/googleplaybilling/GodotGooglePlayBilling.kt:100-102 | The cache becomes the old cache with one `put` per record, in list order, and stays keyed by sku. |
| `SkuBilling.GodotGooglePlayBilling.OnSkuDetailsResponse` | godot-google-play-billing/src/main/java/org/godotengine/godot/plugin/googleplaybilling/GodotGooglePlayBilling.kt:98-116 | On OK: the cache is updated by the `put` loop and the converted list is emitted; a null list throws first and changes nothing. Otherwise: the cache is unchanged and `sku_details_query_error` carries the requested skus. |
| `SkuBilling.GodotGooglePlayBilling.OnAcknowledgePurchaseResponse` | godot-google-play-billing/src/main/java/org/godotengine/godot/plugin/googleplaybilling/GodotGooglePlayBilling.kt:124-135 | `purchase_acknowledged` with the token on OK, else the error with code, message and token. |
| `SkuBilling.GodotGooglePlayBilling.OnConsumeResponse` | godot-google-play-billing/src/main/java/org/godotengine/godot/plugin/googleplaybilling/GodotGooglePlayBilling.kt:143-154 | `purchase_consumed` with the callback token on OK, else the error with code, message and token. |
| `SkuBilling.GodotGooglePlayBilling.OnBillingSetupFinished` | godot-google-play-billing/src/main/java/org/godotengine/godot/plugin/googleplaybilling/GodotGooglePlayBilling.kt:157-163 | `connected` on OK, else `connect_error` with code and message. |
| `SkuBilling.GodotGooglePlayBilling.OnBillingServiceDisconnected` | godot-google-play-billing/src/main/java/org/godotengine/godot/plugin/googleplaybilling/GodotGooglePlayBilling.kt:165-167 | Emits `disconnected`. |
| `SkuBilling.GodotGooglePlayBilling.ConfirmPriceChange` | godot-google-play-billing/src/main/java/org/godotengine/godot/plugin/googleplaybilling/GodotGooglePlayBilling.kt:170-188 | Uncached sku: the fixed failure dictionary, no flow. Cached sku: one price-change flow for the cached details of that sku, and always exactly `{status: 0}`. |
| `SkuBilling.GodotGooglePlayBilling.Purchase` | godot-google-play-billing/src/main/java/org/godotengine/godot/plugin/googleplaybilling/GodotGooglePlayBilling.kt:191-196 | The purchase gate and result mapping, with no update params and, since the ids are never set, no obfuscated ids. |
| `SkuBilling.GodotGooglePlayBilling.UpdateSubscription` | godot-google-play-billing/src/main/java/org/godotengine/godot/plugin/googleplaybilling/GodotGooglePlayBilling.kt:199-201 | The purchase gate and result mapping with the caller's old token and mode; never obfuscated ids. |
| `SkuBilling.GodotGooglePlayBilling.PurchaseInternal` | godot-google-play-billing/src/main/java/org/godotengine/godot/plugin/googleplaybilling/GodotGooglePlayBilling.kt:203-239 | Uncached sku: the fixed failure dictionary, no flow launched. Cached sku: exactly one flow is appended; it follows the flow rules for the cached details of that very sku; the result is the launch-result dictionary. |
| `SkuBilling.GodotGooglePlayBilling.OnPurchasesUpdated` | godot-google-play-billing/src/main/java/org/godotengine/godot/plugin/googleplaybilling/GodotGooglePlayBilling.kt:241-247 | With OK and a list: `purchases_updated` with the converted list, or no signal when the conversion throws. Otherwise: `purchase_error`. |
| `SkuBilling.GodotGooglePlayBilling.OnPriceChangeConfirmationResult` | godot-google-play-billing/src/main/java/org/godotengine/godot/plugin/googleplaybilling/GodotGooglePlayBilling.kt:249-251 | Emits `price_change_acknowledged` with the code. |
| `SkuBilling.GodotGooglePlayBilling.OnMainResume` | godot-google-play-billing/src/main/java/org/godotengine/godot/plugin/googleplaybilling/GodotGooglePlayBilling.kt:253-255 | Emits `billing_resume` on every resume, unconditionally. |
| `SkuBilling.PurchaseBeforeAnyQuery` | godot-google-play-billing/src/main/java/org/godotengine/godot/plugin/googleplaybilling/GodotGooglePlayBilling.kt:204-212 | On a fresh adapter every purchase fails locally with the fixed message. |
| `SkuBilling.PriceChangeBeforeAnyQuery` | godot-google-play-billing/src/main/java/org/godotengine/godot/plugin/googleplaybilling/GodotGooglePlayBilling.kt:171-179 | On a fresh adapter every price-change confirmation fails locally with the fixed message. |
| `SkuBilling.PurchaseAfterQuery` | godot-google-play-billing/src/main/java/org/godotengine/godot/plugin/googleplaybilling/GodotGooglePlayBilling.kt:99-102 | After any OK query with a list, purchasing any sku of the returned list reports the launch result, and confirming a price change for it succeeds. |
| `ProductBillingUtils.ConvertPurchaseToDictionary` | godot-google-play-billing/src/main/java/org/godotengine/godot/plugin/googleplaybilling/utils/GooglePlayBillingUtils.java:43-59 | The purchase dictionary; its keys are fixed by `PurchaseDictionaryShape` and every field reads back by `PurchaseRoundTrip`. |
| `ProductBillingUtils.PurchaseDictionaryShape` | godot-google-play-billing/src/main/java/org/godotengine/godot/plugin/googleplaybilling/utils/GooglePlayBillingUtils.java:43-59 | Exactly the eleven keys. `products` is the purchase's products, in order. |
| `ProductBillingUtils.PurchaseIdentityRead` | godot-google-play-billing/src/main/java/org/godotengine/godot/plugin/googleplaybilling/utils/GooglePlayBillingUtils.java:45-50 | `original_json`, `order_id` (possibly null), `package_name` and `purchase_token` hold the purchase's values. |
| `ProductBillingUtils.PurchaseStateRead` | godot-google-play-billing/src/main/java/org/godotengine/godot/plugin/googleplaybilling/utils/GooglePlayBillingUtils.java:48-52 | `purchase_state`, `purchase_time`, `quantity` and `signature` hold the purchase's values. |
| `ProductBillingUtils.PurchaseFlagsRead` | godot-google-play-billing/src/main/java/org/godotengine/godot/plugin/googleplaybilling/utils/GooglePlayBillingUtils.java:55-58 | `is_acknowledged` and `is_auto_renewing` hold the flags; `products` holds the product list. |
| `ProductBillingUtils.PurchaseRoundTrip` | godot-google-play-billing/src/main/java/org/godotengine/godot/plugin/googleplaybilling/utils/GooglePlayBillingUtils.java:43-59 | Reading the dictionary back gives the purchase: every field is copied unchanged. |
| `ProductBillingUtils.OneTimeOfferDictionary` | godot-google-play-billing/src/main/java/org/godotengine/godot/plugin/googleplaybilling/utils/GooglePlayBillingUtils.java:69-76 | The `one_time_purchase_details` dictionary; `OneTimeOfferRoundTrip` reads its three price entries back. |
| `ProductBillingUtils.PricingPhaseDictionary` | godot-google-play-billing/src/main/java/org/godotengine/godot/plugin/googleplaybilling/utils/GooglePlayBillingUtils.java:89-97 | One pricing-phase dictionary; `PricingPhaseRoundTrip` reads its six entries back. |
| `ProductBillingUtils.OfferDictionary` | godot-google-play-billing/src/main/java/org/godotengine/godot/plugin/googleplaybilling/utils/GooglePlayBillingUtils.java:83-102 | One subscription-offer dictionary; `OfferDictionaryShape` fixes its keys and `OfferRoundTrip` reads it back, phases and tags in order. |
| `ProductBillingUtils.ProductDetailsDictionary` | godot-google-play-billing/src/main/java/org/godotengine/godot/plugin/googleplaybilling/utils/GooglePlayBillingUtils.java:62-108 | What the nested loops of the converter build; `ProductDetailsDictionaryShape` fixes its keys and `ProductDetailsRoundTrip` reads it back. |
| `ProductBillingUtils.ConvertProductDetailsToDictionary` | godot-google-play-billing/src/main/java/org/godotengine/godot/plugin/googleplaybilling/utils/GooglePlayBillingUtils.java:62-109 | The successive `put`s and the nested offer and pricing-phase loops build exactly the product-details dictionary. |
| `ProductBillingUtils.ProductDetailsDictionaryShape` | godot-google-play-billing/src/main/java/org/godotengine/godot/plugin/googleplaybilling/utils/GooglePlayBillingUtils.java:69-106 | `one_time_purchase_details` is present iff the one-time offer is non-null, and then holds its prices. `subscription_offer_details` is present iff the offer list is non-null and non-empty (omitted, not emptied), and then holds one dictionary per offer, in order. |
| `ProductBillingUtils.OfferDictionaryShape` | godot-google-play-billing/src/main/java/org/godotengine/godot/plugin/googleplaybilling/utils/GooglePlayBillingUtils.java:84-100 | An offer dictionary has exactly its three keys; `offer_tags` holds its tags in order; `pricing_phases` holds one dictionary per phase, in order. |
| `ProductBillingUtils.ProductDetailsNamesRead` | godot-google-play-billing/src/main/java/org/godotengine/godot/plugin/googleplaybilling/utils/GooglePlayBillingUtils.java:64-67 | `id`, `title`, `description` and `type` hold the record's values. |
| `ProductBillingUtils.ProductDetailsOffersRead` | godot-google-play-billing/src/main/java/org/godotengine/godot/plugin/googleplaybilling/utils/GooglePlayBillingUtils.java:69-106 | The presence rules and contents of the two optional entries, as a reader sees them. |
| `ProductBillingUtils.OneTimeOfferRoundTrip` | godot-google-play-billing/src/main/java/org/godotengine/godot/plugin/googleplaybilling/utils/GooglePlayBillingUtils.java:70-75 | The three one-time prices read back unchanged. |
| `ProductBillingUtils.PricingPhaseRoundTrip` | godot-google-play-billing/src/main/java/org/godotengine/godot/plugin/googleplaybilling/utils/GooglePlayBillingUtils.java:90-97 | The six pricing-phase fields read back unchanged. |
| `ProductBillingUtils.OfferRoundTrip` | godot-google-play-billing/src/main/java/org/godotengine/godot/plugin/googleplaybilling/utils/GooglePlayBillingUtils.java:84-102 | An offer reads back unchanged: its token, its tags in order, and its phases one by one, in order. |
| `ProductBillingUtils.ProductDetailsRoundTrip` | godot-google-play-billing/src/main/java/org/godotengine/godot/plugin/googleplaybilling/utils/GooglePlayBillingUtils.java:62-109 | The record reads back unchanged, except that a null or empty offer list both read back as null. |
| `ProductBillingUtils.ConvertPurchaseListToDictionaryObjectArray` | godot-google-play-billing/src/main/java/org/godotengine/godot/plugin/googleplaybilling/utils/GooglePlayBillingUtils.java:111-119 | The array has the list's length; element i is the dictionary of purchase i. |
| `ProductBillingUtils.ConvertProductDetailsListToDictionaryObjectArray` | godot-google-play-billing/src/main/java/org/godotengine/godot/plugin/googleplaybilling/utils/GooglePlayBillingUtils.java:121-129 | The array has the list's length; element i is the dictionary of record i. |
| `ProductBillingUtils.PurchaseListRoundTrip` | godot-google-play-billing/src/main/java/org/godotengine/godot/plugin/googleplaybilling/utils/GooglePlayBillingUtils.java:111-119 | The converted list reads back as the purchase list, in order. |
| `ProductBillingUtils.ProductDetailsListRoundTrip` | godot-google-play-billing/src/main/java/org/godotengine/godot/plugin/googleplaybilling/utils/GooglePlayBillingUtils.java:121-129 | The converted list reads back record by record, in order. |
| `SkuBillingUtils.ConvertPurchaseToDictionary` | godot-google-play-billing/src/main/java/org/godotengine/godot/plugin/googleplaybilling/utils/GooglePlayBillingUtils.kt:38-56 | The conversion fails iff the purchase has no sku (`skus[0]` throws). Otherwise: exactly the eleven keys, `sku` is the first sku, and `skus` is all of them in order. |
| `SkuBillingUtils.PurchaseRoundTrip` | godot-google-play-billing/src/main/java/org/godotengine/godot/plugin/googleplaybilling/utils/GooglePlayBillingUtils.kt:38-56 | A purchase with at least one sku reads back unchanged. |
| `SkuBillingUtils.ConvertPurchaseListToDictionaryObjectArray` | godot-google-play-billing/src/main/java/org/godotengine/godot/plugin/googleplaybilling/utils/GooglePlayBillingUtils.kt:79-86 | The conversion fails iff some purchase has no sku. Otherwise: the list's length, element i is the dictionary of purchase i, and the whole array is the list value. |
| `SkuBillingUtils.PurchaseListRoundTrip` | godot-google-play-billing/src/main/java/org/godotengine/godot/plugin/googleplaybilling/utils/GooglePlayBillingUtils.kt:79-86 | A purchase list that converts reads back as the list, in order. |
| `SkuBillingUtils.ConvertSkuDetailsToDictionary` | godot-google-play-billing/src/main/java/org/godotengine/godot/plugin/googleplaybilling/utils/GooglePlayBillingUtils.kt:58-77 | The sku-details dictionary; `SkuDetailsDictionaryKeys` fixes its sixteen keys and `SkuDetailsRoundTrip` reads every field back. |
| `SkuBillingUtils.SkuDetailsDictionaryKeys` | godot-google-play-billing/src/main/java/org/godotengine/godot/plugin/googleplaybilling/utils/GooglePlayBillingUtils.kt:58-77 | Exactly the sixteen keys. |
| `SkuBillingUtils.SkuDetailsNamesRead` | godot-google-play-billing/src/main/java/org/godotengine/godot/plugin/googleplaybilling/utils/GooglePlayBillingUtils.kt:60-75 | `sku`, `title`, `description` and `type` hold the record's values. |
| `SkuBillingUtils.SkuDetailsPriceRead` | godot-google-play-billing/src/main/java/org/godotengine/godot/plugin/googleplaybilling/utils/GooglePlayBillingUtils.kt:63-67 | `price`, `price_currency_code`, `price_amount_micros` (the integer, unaltered) and `icon_url` hold the record's values. |
| `SkuBillingUtils.SkuDetailsIntroductoryRead` | godot-google-play-billing/src/main/java/org/godotengine/godot/plugin/googleplaybilling/utils/GooglePlayBillingUtils.kt:68-71 | `introductory_price`, `introductory_price_amount_micros`, `introductory_price_cycles` and `introductory_price_period` hold the record's values. |
| `SkuBillingUtils.SkuDetailsPeriodsRead` | godot-google-play-billing/src/main/java/org/godotengine/godot/plugin/googleplaybilling/utils/GooglePlayBillingUtils.kt:66-74 | `free_trial_period`, `original_price`, `original_price_amount_micros` and `subscription_period` hold the record's values. |
| `SkuBillingUtils.SkuDetailsRoundTrip` | godot-google-play-billing/src/main/java/org/godotengine/godot/plugin/googleplaybilling/utils/GooglePlayBillingUtils.kt:58-77 | The sku details read back unchanged. |
| `SkuBillingUtils.ConvertSkuDetailsListToDictionaryObjectArray` | godot-google-play-billing/src/main/java/org/godotengine/godot/plugin/googleplaybilling/utils/GooglePlayBillingUtils.kt:88-97 | The array has the list's length; element i is the dictionary of record i. |
| `SkuBillingUtils.SkuDetailsListRoundTrip` | godot-google-play-billing/src/main/java/org/godotengine/godot/plugin/googleplaybilling/utils/GooglePlayBillingUtils.kt:88-97 | The converted list reads back as the list, in order. |
| `Utils.ConvertPurchaseListToArray` | godot-google-play-billing/src/main/java/org/godotengine/plugin/googleplaybilling/Utils.kt:11-18 | The array has the list's length; element i is the dictionary of purchase i. |
| `Utils.PurchaseToDictionary` | godot-google-play-billing/src/main/java/org/godotengine/plugin/googleplaybilling/Utils.kt:20-34 | The purchase dictionary; its keys are fixed by `PurchaseDictionaryShape` and every field reads back by `PurchaseRoundTrip`. |
| `Utils.PurchaseDictionaryShape` | godot-google-play-billing/src/main/java/org/godotengine/plugin/googleplaybilling/Utils.kt:20-34 | Exactly eleven keys. `product_ids` is the products, in order. |
| `Utils.PurchaseIdentityRead` | godot-google-play-billing/src/main/java/org/godotengine/plugin/googleplaybilling/Utils.kt:22-27 | `order_id` (possibly null), `purchase_token`, `package_name` and `original_json` hold the purchase's values. |
| `Utils.PurchaseStateRead` | godot-google-play-billing/src/main/java/org/godotengine/plugin/googleplaybilling/Utils.kt:25-31 | `purchase_state`, `purchase_time`, `quantity` and `signature` hold the purchase's values. |
| `Utils.PurchaseFlagsRead` | godot-google-play-billing/src/main/java/org/godotengine/plugin/googleplaybilling/Utils.kt:28-32 | The two flags and `product_ids` hold the purchase's values. |
| `Utils.PurchaseRoundTrip` | godot-google-play-billing/src/main/java/org/godotengine/plugin/googleplaybilling/Utils.kt:20-34 | The purchase reads back unchanged. |
| `Utils.PurchaseListRoundTrip` | godot-google-play-billing/src/main/java/org/godotengine/plugin/googleplaybilling/Utils.kt:11-18 | The converted list reads back as the purchase list, in order. |
| `Utils.ConvertUnfetchedProductListToArray` | godot-google-play-billing/src/main/java/org/godotengine/plugin/googleplaybilling/Utils.kt:36-43 | The array has the list's length; element i is the dictionary of product i. |
| `Utils.UnfetchedProductToDictionary` | godot-google-play-billing/src/main/java/org/godotengine/plugin/googleplaybilling/Utils.kt:45-51 | Exactly the three keys. |
| `Utils.UnfetchedProductRoundTrip` | godot-google-play-billing/src/main/java/org/godotengine/plugin/googleplaybilling/Utils.kt:45-51 | The three fields read back unchanged. |
| `Utils.UnfetchedProductListRoundTrip` | godot-google-play-billing/src/main/java/org/godotengine/plugin/googleplaybilling/Utils.kt:36-43 | The converted list reads back as the list, in order. |
| `Utils.ConvertProductDetailsListToArray` | godot-google-play-billing/src/main/java/org/godotengine/plugin/googleplaybilling/Utils.kt:53-60 | The array has the list's length; element i is the dictionary of record i. |
| `Utils.ProductDetailsDictionary` | godot-google-play-billing/src/main/java/org/godotengine/plugin/googleplaybilling/Utils.kt:62-84 | What `productDetailsToDictionary` builds, null for a missing or empty offer list; `ProductDetailsDictionaryShape` fixes its keys and `ProductDetailsRoundTrip` reads it back. |
| `Utils.ProductDetailsToDictionary` | godot-google-play-billing/src/main/java/org/godotengine/plugin/googleplaybilling/Utils.kt:62-84 | The `put`s and the offer loop build exactly the product-details dictionary. |
| `Utils.ProductDetailsDictionaryShape` | godot-google-play-billing/src/main/java/org/godotengine/plugin/googleplaybilling/Utils.kt:62-84 | The seven keys are always present. `one_time_purchase_offer_details` is null iff there is no one-time offer, and otherwise holds its prices. `subscription_offer_details` is null iff the list is null or empty, and otherwise holds one dictionary per offer, in order. |
| `Utils.ProductDetailsNamesRead` | godot-google-play-billing/src/main/java/org/godotengine/plugin/googleplaybilling/Utils.kt:64-68 | `product_id`, `title`, `name`, `description` and `product_type` hold the record's values. |
| `Utils.ProductDetailsOffersRead` | godot-google-play-billing/src/main/java/org/godotengine/plugin/googleplaybilling/Utils.kt:70-81 | The two offer entries, null or converted, as a reader sees them. |
| `Utils.ProductDetailsRoundTrip` | godot-google-play-billing/src/main/java/org/godotengine/plugin/googleplaybilling/Utils.kt:62-84 | The record reads back unchanged, except that a null or empty offer list both read back as null. |
| `Utils.ProductDetailsListRoundTrip` | godot-google-play-billing/src/main/java/org/godotengine/plugin/googleplaybilling/Utils.kt:53-60 | The converted list reads back record by record, in order. |
| `Utils.OneTimeOfferToDict` | godot-google-play-billing/src/main/java/org/godotengine/plugin/googleplaybilling/Utils.kt:86-92 | Exactly the three price keys. |
| `Utils.OneTimeOfferRoundTrip` | godot-google-play-billing/src/main/java/org/godotengine/plugin/googleplaybilling/Utils.kt:86-92 | The three prices read back unchanged. |
| `Utils.SubscriptionOfferToDict` | godot-google-play-billing/src/main/java/org/godotengine/plugin/googleplaybilling/Utils.kt:94-125 | The `put`s and the `phasesArray` loop build exactly the offer dictionary. |
| `Utils.OfferDictionaryShape` | godot-google-play-billing/src/main/java/org/godotengine/plugin/googleplaybilling/Utils.kt:94-125 | The six keys are always present. `installment_plan_details` is null iff there is no plan, and otherwise holds the two counts. `pricing_phases` is one dictionary per phase, in order. `offer_tags` is the tags, in order. |
| `Utils.InstallmentToValue` | godot-google-play-billing/src/main/java/org/godotengine/plugin/googleplaybilling/Utils.kt:100-105 | Null for an offer without an installment plan, else the two commitment counts; `InstallmentRoundTrip` reads either back. |
| `Utils.PricingPhaseDictionary` | godot-google-play-billing/src/main/java/org/godotengine/plugin/googleplaybilling/Utils.kt:110-118 | One entry of `phasesArray`; `PricingPhaseRoundTrip` reads its six entries back. |
| `Utils.SubscriptionOfferDictionary` | godot-google-play-billing/src/main/java/org/godotengine/plugin/googleplaybilling/Utils.kt:94-125 | What `subscriptionOfferToDict` builds; `OfferDictionaryShape` fixes its keys and `OfferRoundTrip` reads it back. |
| `Utils.InstallmentRoundTrip` | godot-google-play-billing/src/main/java/org/godotengine/plugin/googleplaybilling/Utils.kt:100-105 | A missing plan reads back as missing, and a present plan reads back with both counts. |
| `Utils.PricingPhaseRoundTrip` | godot-google-play-billing/src/main/java/org/godotengine/plugin/googleplaybilling/Utils.kt:110-118 | The six pricing-phase fields read back unchanged. |
| `Utils.OfferScalarsRead` | godot-google-play-billing/src/main/java/org/godotengine/plugin/googleplaybilling/Utils.kt:96-98 | `base_plan_id`, `offer_id` (possibly null) and `offer_token` hold the offer's values. |
| `Utils.OfferNestedRead` | godot-google-play-billing/src/main/java/org/godotengine/plugin/googleplaybilling/Utils.kt:100-122 | The installment, pricing-phase and tag entries hold their converted values. |
| `Utils.OfferRoundTrip` | godot-google-play-billing/src/main/java/org/godotengine/plugin/googleplaybilling/Utils.kt:94-125 | An offer reads back unchanged, phases and tags in order. |
| `Utils.CreateResultDict` | godot-google-play-billing/src/main/java/org/godotengine/plugin/googleplaybilling/Utils.kt:127-132 | Exactly `response_code` and `debug_message`, reading back as the given code and message. |

## Left out

- Vendor client calls. `startConnection` on the client, `endConnection`,
  `isReady`, `getConnectionState`, `queryPurchasesAsync`,
  `queryProductDetailsAsync`, `querySkuDetailsAsync`, `acknowledgePurchase`,
  `consumeAsync`, `launchBillingFlow` and `launchPriceChangeConfirmationFlow`
  are foreign and asynchronous. Their results are method parameters, and the
  requests either appear in ghost logs or are not modelled.
- Host plumbing. `emitSignal` appears as the ghost signal log.
  `getActivity`, `getPluginName` and the static signal registry of
  `getPluginSignals` are not modelled.
- Concurrency. Vendor callbacks may run on other threads and touch the
  unguarded cache. The model treats them as sequential method calls.
- Dictionary insertion order and the host's array types. A dictionary is a
  map, and Java `List` values and Kotlin arrays are both `Arr`.
- The pairing of a request with its callback. A callback method takes the
  request's arguments (the requested skus, the acknowledged token) as
  parameters. It is not checked that a matching request was issued.
- Exceptions. A Kotlin `!!` on a null type string, a null sku in the
  requested array, a null `purchaseToken` in `acknowledgePurchase` or a null
  `activity` in the client builder is not modelled: the parameters are
  non-null strings and the activity is not modelled.
  A null `skuDetailsList` on OK, and a purchase without skus, make the
  callback end without emitting; that part is modelled.
- `ProductBilling.GodotGooglePlayBilling.PurchaseInternal`: the Java
  `assert productDetails != null` after the cache lookup always holds in the
  model, because the cache maps to records, not to possibly-null references.
- `GooglePlayBillingConfig.cs` (editor export constants), `build.gradle.kts`
  (build configuration) and the `org/godotengine/plugin/googleplaybilling/GodotGooglePlayBilling.kt`
  stub (a UI toast) are not part of this model.
