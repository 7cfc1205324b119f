/** The Omnitracking definitions: which parameters each page-view event and
    the track (page action) event may carry, the keywords that classify a page
    view, the track events of interest, and the user-gender normaliser. All of
    them are constant tables. */
module OmnitrackingDefinitions {
  import opened Wrappers

  const ProductIdParameter: string := "productId"
  const ProductIdParameterFromBagWishlist: string := "id"

  /** Parameters common to every page event; each page definition extends it. */
  const CommonPageParams: seq<string> := [
    "abTests", "accessTier", "actionArea", "assistantUserId", "basketCurrency", "basketId",
    "basketQuantity", "basketValue", "clientAdvertisingID", "clientCountry", "clientGender",
    "clientInstallId", "clientLanguage", "clientSDKVersion", "clientVersion", "department",
    "device", "deviceId", "deviceLanguage", "deviceOS", "dismiss", "domainUrl", "elementsSeen",
    "errorMessage", "exitInteraction", "geoLocation", "geoLocationCity", "geoLocationState",
    "httpStatusCode", "inStoreSessionId", "internalRequest", "ip", "isBot", "isCustomer",
    "isExclusive", "isLogged", "itemList", "itemStoreStockList", "loginType", "navigatedFrom",
    "ordersList", "pageId", "pageName", "parentId", "performanceTimings",
    "performanceTrackingIds", "previousUniqueViewId", "priceType", "productShippingOptions",
    "pushStatus", "referrerUnionId", "returnDetails", "returnItemsSelectionList",
    "screenHeight", "screenWidth", "searchQuery", "searchResultCount", "searchResultsType",
    "searchSuggestion", "searchType", "selectedPaymentMethod", "sessionId", "startedTyping",
    "status", "stockpointId", "storeId", "suggestionType", "uniqueViewId", "url",
    "userBenefits", "userCountryLocation", "userGender", "utmCampaign", "utmContent",
    "utmMedium", "utmSource", "utmTerm", "uuid", "val", "viewCurrency", "viewGender",
    "viewSubType", "viewType", "weChatOpenID", "weChatUnionId", "wishlistQuantity"
  ]

  /** Parameters common to `track` (PageAction) and GenericPageVisited (PageView). */
  const CommonTrackAndPageParams: seq<string> := [
    "attributesList", "categoryList", "colourList", "designerList", "discount", "filterType",
    "filtersApplied", "hasNewMessages", "integrationId", "interactionType", "itemPriceList",
    "itemSalePriceList", "itemStockList", "itemStoreList", "marketType", "merchantLocationId",
    "messageId", "messageNumber", "pageNumber", "priceFilter", "returnId", "scaleList",
    "selectableFieldsList", "sizeList", "skuItemList", "tagList", "variantId"
  ]

  const GenericPageVisitedParams: seq<string> := CommonPageParams + CommonTrackAndPageParams + [
    "deliveryOptions", "deliveryOptionsDetails", "orderDetails", "orderList", "orderSummary",
    "paymentStatus", "selectedOrderType", "shippingTotalValue", "shippingTypeFee", "tagSkuList"
  ]

  const CheckoutPageVisitedParams: seq<string> := CommonPageParams + [
    "availablePaymentOptions", "checkoutOrderId", "checkoutStep", "defaultPaymentMethod",
    "isShippingAddressClickAndCollect", "orderCode", "orderCurrency", "orderId", "orderVAT",
    "orderValue", "productCount", "promoCode", "saleProductCount", "selectableFieldsList",
    "shippingTotalValue", "shippingTypeFee", "userCheckoutType"
  ]

  const ListingPageVisitedParams: seq<string> := CommonPageParams + [
    "categoryId", "categoryName", "collectionId", "designerId", "designerName", "didYouMean",
    "itemRankTypeList", "outfitId", "promotionId", "recsType", "saleType", "seasonId", "setId",
    "skuItemsListWithSimilar", "sortOption"
  ]

  const ProductPageVisitedParams: seq<string> := CommonPageParams + [
    "applePayStatus", "categoryId", "categoryName", "collectionId", "complementaryLookType",
    "designerId", "designerName", "lookId", "numberOfSizes", "numberOfSizesInStore",
    "rankType", "recommendationSource", "seasonId", "totalStock", "totalStockInStore",
    "unitFullPrice", "unitSalePrice"
  ] + [ProductIdParameter]

  /** The parameter whitelist of each page-view event type. */
  const PageDefinitions: map<string, seq<string>> := map[
    "GenericPageVisited" := GenericPageVisitedParams,
    "CheckoutPageVisited" := CheckoutPageVisitedParams,
    "ListingPageVisited" := ListingPageVisitedParams,
    "ProductPageVisited" := ProductPageVisitedParams
  ]

  const PageActionParameters: seq<string> := [
    "accessTier", "actionArea", "advertiserId", "categoryId", "categoryName",
    "checkoutOrderId", "contentProvider", "contentType", "deliveryInformationDetails",
    "deliveryOptions", "deliveryOptionsDetails", "designerId", "designerName", "dismiss",
    "errorMessage", "hasError", "itemCoordinates", "itemQuantity", "itemSize", "moduleId",
    "moduleLoadTime", "moduleState", "moduleType", "moduleWasInteracted", "moduleWasSeen",
    "orderCode", "orderCodeId", "orderSummary", "priceCurrency", "productCount", "productId",
    "promoCode", "provider", "recommendationsId", "recommendationsProductList", "recsLoaded",
    "recsRequested", "recsStrategy", "recsType", "refundInformationDetails", "scrollDepth",
    "slotIndex", "sortOption", "sourceDescription", "sourceGroupDescription", "sourceId",
    "sourceType", "sourceWasSeen", "status", "storeConnections", "storeId", "targetId",
    "targetType", "totalStock", "totalStockInStore", "uniqueViewId", "unitFullPrice",
    "unitSalePrice", "uuid"
  ]

  const SystemActionParameters: seq<string> := []

  /** The parameter whitelist of track (page action and system action) events. */
  const TrackDefinitions: seq<string> :=
    SystemActionParameters + PageActionParameters + CommonTrackAndPageParams + ["val", "tid"]

  /** Page-action event types sent on the `event` parameter. */
  const PageActionEventTypes: map<string, string> := map[
    "PAGE_ACTION" := "PageAction",
    "SYSTEM_ACTION" := "SystemAction"
  ]

  /** Page-view event types sent on the `event` parameter. */
  const PageViewEventTypes: map<string, string> := map[
    "GenericPageVisited" := "GenericPageVisited",
    "ProductPageVisited" := "ProductPageVisited",
    "ListingPageVisited" := "ListingPageVisited",
    "CheckoutPageVisited" := "CheckoutPageVisited"
  ]

  /** The values of the analytics `pageTypes` constants the keyword filter uses. */
  datatype PageTypes = PageTypes(
    productListing: string,
    search: string,
    productDetails: string,
    checkout: string,
    checkoutDeliveryMethod: string,
    checkoutPayment: string,
    checkoutReview: string,
    checkoutShipping: string)

  /** The keywords, matched against the location or the page name, that make a
      page view one of the specific page-visited events. */
  function PageEventsFilter(pt: PageTypes): map<string, seq<string>>
  {
    map[
      PageViewEventTypes["ListingPageVisited"] :=
        [pt.productListing, pt.search, "ProductList", "listing", "search", "sets"],
      PageViewEventTypes["ProductPageVisited"] :=
        [pt.productDetails, "ProductDetail", "product"],
      PageViewEventTypes["CheckoutPageVisited"] :=
        [pt.checkout, pt.checkoutDeliveryMethod, pt.checkoutPayment, pt.checkoutReview,
         pt.checkoutShipping, "Checkout", "confirm", "payment"]
    ]
  }

  /** The values of the analytics `eventTypes` constants the track mapper uses. */
  datatype EventTypes = EventTypes(
    signupFormViewed: string,
    checkoutStepViewed: string,
    placeOrderStarted: string,
    productAddedToCart: string,
    productAddedToWishlist: string)

  /** An entry of the track mapper: an optional `type` and the `tid`. */
  datatype TrackEvent = TrackEvent(kind: Option<string>, tid: int)

  /** The track events of interest. As in an object literal with computed
      keys, a later key that equals an earlier one overwrites it. */
  function TrackEventsMapper(et: EventTypes): map<string, TrackEvent>
  {
    map[
      et.signupFormViewed := TrackEvent(Some("REGISTER"), 10097),
      et.checkoutStepViewed := TrackEvent(Some("SUBMIT"), 10097),
      et.placeOrderStarted := TrackEvent(Some("TRANSACTION"), 10097),
      et.productAddedToCart := TrackEvent(None, 16),
      et.productAddedToWishlist := TrackEvent(None, 35)
    ]
  }

  /** Normalises a user gender, given as its id ("0", "1", "2": object keys are
      strings) or already as its name, to the name Omnitracking expects. */
  const UserGenderValuesMapper: map<string, string> := map[
    "0" := "NotDefined",
    "1" := "Male",
    "2" := "Female",
    "NotDefined" := "NotDefined",
    "Male" := "Male",
    "Female" := "Female"
  ]

  // ---------------------------------------------------------------------------
  // Properties of the tables

  /** GenericPageVisited is the common page parameters, then the common track
      and page parameters, then ten more; so it allows every common parameter. */
  lemma GenericPageVisitedComposition()
    ensures var g := PageDefinitions["GenericPageVisited"];
      && g[..|CommonPageParams|] == CommonPageParams
      && g[|CommonPageParams|..|CommonPageParams| + |CommonTrackAndPageParams|] == CommonTrackAndPageParams
      && |g| == |CommonPageParams| + |CommonTrackAndPageParams| + 10
      && (forall p :: p in CommonPageParams ==> p in g)
      && (forall p :: p in CommonTrackAndPageParams ==> p in g)
  {
    var g := PageDefinitions["GenericPageVisited"];
    assert g == CommonPageParams + CommonTrackAndPageParams + g[|CommonPageParams| + |CommonTrackAndPageParams|..];
  }

  /** The Checkout, Listing and Product page-visited whitelists each begin with
      all of the common page parameters. */
  lemma SpecificPagesExtendCommon()
    ensures forall k :: k in {"CheckoutPageVisited", "ListingPageVisited", "ProductPageVisited"} ==>
      && k in PageDefinitions
      && |PageDefinitions[k]| > |CommonPageParams|
      && PageDefinitions[k][..|CommonPageParams|] == CommonPageParams
      && forall p :: p in CommonPageParams ==> p in PageDefinitions[k]
  {
  }

  /** ProductPageVisited allows the product id parameter. */
  lemma ProductPageAllowsProductId()
    ensures ProductIdParameter == "productId"
    ensures ProductIdParameter in PageDefinitions["ProductPageVisited"]
  {
    var p := PageDefinitions["ProductPageVisited"];
    assert p[|p| - 1] == ProductIdParameter;
  }

  /** The page-view event types are exactly the keys of the page definitions. */
  lemma PageDefinitionsCoverPageViews()
    ensures PageDefinitions.Keys == PageViewEventTypes.Values
    ensures forall k :: k in PageViewEventTypes ==> PageViewEventTypes[k] == k
  {
    forall v | v in PageViewEventTypes.Values ensures v in PageDefinitions {
      var k :| k in PageViewEventTypes && PageViewEventTypes[k] == v;
    }
    forall k | k in PageDefinitions ensures k in PageViewEventTypes.Values {
      assert PageViewEventTypes[k] == k;
    }
  }

  /** There are no system-action parameters; the track whitelist is the page
      action parameters, then the common track and page parameters, then
      `val` and `tid`. */
  lemma TrackDefinitionsComposition()
    ensures SystemActionParameters == []
    ensures TrackDefinitions == PageActionParameters + CommonTrackAndPageParams + ["val", "tid"]
    ensures "tid" in TrackDefinitions && "val" in TrackDefinitions
    ensures forall p :: p in PageActionParameters ==> p in TrackDefinitions
    ensures forall p :: p in CommonTrackAndPageParams ==> p in TrackDefinitions
  {
    assert TrackDefinitions[|TrackDefinitions| - 1] == "tid";
  }

  /** The keyword filter has entries for the Listing, Product and Checkout page
      views only; GenericPageVisited has none. */
  lemma PageEventsFilterKeys(pt: PageTypes)
    ensures PageEventsFilter(pt).Keys == {"ListingPageVisited", "ProductPageVisited", "CheckoutPageVisited"}
    ensures "GenericPageVisited" !in PageEventsFilter(pt)
    ensures forall k :: k in PageEventsFilter(pt) ==> k in PageViewEventTypes.Values && |PageEventsFilter(pt)[k]| > 0
  {
  }

  /** With distinct event names: every entry has a tid; the three entries with
      a `type` are the sign-up, checkout-step and place-order events, all with
      tid 10097; add-to-cart has tid 16 and add-to-wishlist tid 35. */
  lemma TrackEventsTable(et: EventTypes)
    requires
      var ks := [et.signupFormViewed, et.checkoutStepViewed, et.placeOrderStarted,
                 et.productAddedToCart, et.productAddedToWishlist];
      forall i, j :: 0 <= i < j < |ks| ==> ks[i] != ks[j]
    ensures var m := TrackEventsMapper(et);
      && |m.Keys| == 5
      && (forall k :: k in m && m[k].kind.Some? ==> m[k].tid == 10097)
      && (forall k :: k in m && m[k].kind.Some? <==>
            k in {et.signupFormViewed, et.checkoutStepViewed, et.placeOrderStarted})
      && m[et.signupFormViewed].kind == Some("REGISTER")
      && m[et.checkoutStepViewed].kind == Some("SUBMIT")
      && m[et.placeOrderStarted].kind == Some("TRANSACTION")
      && m[et.productAddedToCart] == TrackEvent(None, 16)
      && m[et.productAddedToWishlist] == TrackEvent(None, 35)
  {
    var ks := [et.signupFormViewed, et.checkoutStepViewed, et.placeOrderStarted,
               et.productAddedToCart, et.productAddedToWishlist];
    assert ks[0] != ks[3] && ks[0] != ks[4] && ks[1] != ks[3] && ks[1] != ks[4];
    assert ks[2] != ks[3] && ks[2] != ks[4] && ks[3] != ks[4];
    assert ks[0] != ks[1] && ks[0] != ks[2] && ks[1] != ks[2];
  }

  /** The gender mapper sends 0, 1, 2 to NotDefined, Male, Female and each of
      those names to itself, so applying it twice is applying it once. */
  lemma UserGenderNormalises()
    ensures UserGenderValuesMapper["0"] == "NotDefined"
    ensures UserGenderValuesMapper["1"] == "Male"
    ensures UserGenderValuesMapper["2"] == "Female"
    ensures UserGenderValuesMapper.Values == {"NotDefined", "Male", "Female"}
    ensures forall k :: k in UserGenderValuesMapper ==>
      UserGenderValuesMapper[k] in UserGenderValuesMapper
      && UserGenderValuesMapper[UserGenderValuesMapper[k]] == UserGenderValuesMapper[k]
  {
  }
}
