# Search-intent redirects, Omnitracking whitelists and the charge thunk

This project is a Dafny model of three pieces of the storefront libraries. It
proves properties of each.

- **The search-intent redirect resolver** `getSearchRedirectUrl`
  (module `SearchIntents`, `search_intents.dfy`). It turns a search-intents
  result into the path to navigate to:
  - REDIRECT goes to `"/" + redirectUrl`.
  - PRODUCT goes to `baseUrl + "/" + slug` of the first resource.
  - LISTING is the main algorithm. A `forEach` over `FILTER_SLUGS_ORDER` moves
    at most one slug-bearing resource per filter type from a working copy of
    the list into a slug list. The slugs are joined with `/`. A `reduce` turns
    every remaining resource into a query entry, keyed `query` or by the
    lower-cased `TYPE_FILTER` name. The result is handed to `buildSetFilters`
    and `urlJoin`.

  The `forEach` and the `reduce` are methods with loops
  (`PromoteSlugResources`, `BuildQueryParams`). Each is proved equal to a
  left-fold specification function (`Promote`, `QueryParamsOf`). The
  properties are lemmas about those functions.
- **The Omnitracking definitions** (module `OmnitrackingDefinitions`,
  `omnitracking_definitions.dfy`). These are the constant parameter
  whitelists and event tables, written out as Dafny sequences and maps, with
  lemmas about how they are composed, about membership, and about the gender
  normaliser.
- **The charge thunk of `postChargesFactory`** (module `ChargeFactory`,
  `charge_factory.dfy`). It covers the charge id read from the `location`
  header with JavaScript `split('charges/')[1] || ''` semantics. It also
  covers the REQUEST → SUCCESS/FAILURE dispatch trace. The store is a class
  whose log the thunk appends to.

`js_text.dfy` (module `JsText`) models the JavaScript string operations these
rely on: `join`, `indexOf`, `split` with a non-empty separator, and
`toLowerCase`. `wrappers.dfy` holds `Option`.

JavaScript semantics are modelled explicitly:
- A runtime TypeError (reading a property of `undefined`) is an outcome of the
  model (`Result.TypeError`, `Thrown.TypeError`). It is never a precondition.
- A slug is truthy when it is present and not `""`.
- The `findIndex` callback short-circuits.
- Assigning to a key of an object overwrites an existing entry in its place
  and appends a new one, so the query parameters are an ordered entry list
  (see `SearchIntents.Assign` under "Left out" for integer-like keys).
- A string field of the result (a slug, the redirect url) can be a string,
  `undefined` or `null` (`MaybeText`). `Array.prototype.join` renders both
  missing forms as `""`. A template literal renders them as `"undefined"` and
  `"null"`.

## Model

| member | source | states |
|---|---|---|
| SearchIntents.GetSearchRedirectUrl | packages/react/src/search/hooks/useSearchIntents.js:47-131 | The resolver, step by step as written: its result is exactly `SearchRedirectUrl` of the same inputs, including its TypeError and `undefined` outcomes |
| SearchIntents.SearchRedirectUrl | packages/react/src/search/hooks/useSearchIntents.js:47-131 | The resolver as one expression over the request type; its cases are stated by `RedirectUrlByType` |
| SearchIntents.RedirectUrlByType | packages/react/src/search/hooks/useSearchIntents.js:47-131 | Absent input gives undefined. A missing resource list throws before the switch, for every request type. REDIRECT is `"/" + redirectUrl` as a template literal renders it. PRODUCT is `baseUrl + "/" + slug` of the first value of the first resource, and throws when either list is empty. LISTING throws exactly when the promotion or the reduce throws, and is otherwise `urlJoin(baseUrl, slug path, buildSetFilters(query params))`. Any other type gives undefined |
| SearchIntents.SlugMatch | packages/react/src/search/hooks/useSearchIntents.js:82-87 | The findIndex callback is true exactly for a resource of the type with one value whose slug is non-empty, and throws exactly for a resource of the type with no values |
| SearchIntents.FindSlugIndex | packages/react/src/search/hooks/useSearchIntents.js:82-87 | A found index is a promotable resource with no promotable or faulting resource before it. Not found means none is promotable or faulting. A throw means a faulting resource comes before any promotable one |
| SearchIntents.RemoveAt | packages/react/src/search/hooks/useSearchIntents.js:92 | `splice(i, 1)` shortens the list by one and removes exactly the element at `i` (multisets) |
| SearchIntents.PromoteStep | packages/react/src/search/hooks/useSearchIntents.js:82-93 | One pass of the forEach: findIndex on the working list, then push the found resource and splice it out, or leave both lists as they are; stated through `Promote`'s lemmas |
| SearchIntents.Promote | packages/react/src/search/hooks/useSearchIntents.js:77-94 | The forEach over FILTER_SLUGS_ORDER as a left fold of findIndex-and-splice steps; its properties are in the lemmas below |
| SearchIntents.PromoteSlugResources | packages/react/src/search/hooks/useSearchIntents.js:73-94 | The forEach loop with push and splice computes exactly `Promote(FILTER_SLUGS_ORDER, resources)`, throwing or not |
| SearchIntents.PromotePermutation | packages/react/src/search/hooks/useSearchIntents.js:88-93 | The promoted resources followed by the remaining ones are a permutation of the input |
| SearchIntents.PromoteKeepsOrder | packages/react/src/search/hooks/useSearchIntents.js:88-93 | The remaining resources are a subsequence of the input: they keep their relative order |
| SearchIntents.PromotePrecedence | packages/react/src/search/hooks/useSearchIntents.js:77-94 | At most one resource is promoted per filter type. The types of the promoted resources are a subsequence of FILTER_SLUGS_ORDER. Every promoted resource has exactly one value with a non-empty slug |
| SearchIntents.PromoteMatchesByType | packages/react/src/search/hooks/useSearchIntents.js:77-94 | For distinct filter types, promoting from the shrinking working list throws in the same cases as, and yields the same slug list as, taking each type's first promotable resource from the original input. Resources of other types are untouched |
| SearchIntents.FirstSlugOnlySeesType | packages/react/src/search/hooks/useSearchIntents.js:82-87 | The resource picked for a type depends only on the resources of that type |
| SearchIntents.OfTypeConcat | packages/react/src/search/hooks/useSearchIntents.js:92 | Selecting one filter type distributes over concatenation. This is the step that lets a splice of another type's resource leave a type's resources unchanged |
| SearchIntents.Segment | packages/react/src/search/hooks/useSearchIntents.js:100 | One promoted resource's `values.map(({ slug }) => slug)` as the outer join renders it: its slugs joined by ","; `PromotableSegment` shows it is the single slug of a promotable resource |
| SearchIntents.JoinedText | packages/react/src/search/hooks/useSearchIntents.js:100-101 | `Array.prototype.join` renders a missing or null slug as "" |
| SearchIntents.SlugsUrl | packages/react/src/search/hooks/useSearchIntents.js:97-101 | `!!resourcesWithSlug.length && ….join('/')`, with None for `false`; stated by `SlugPath` |
| SearchIntents.SlugPath | packages/react/src/search/hooks/useSearchIntents.js:96-101 | The slug path is `false` exactly when nothing was promoted. Otherwise it is the promoted resources' slugs, each non-empty, joined by "/" in promotion order |
| SearchIntents.ValueOf | packages/react/src/search/hooks/useSearchIntents.js:113 | `TYPE_FILTER.TEXT`: the value of the entry named "TEXT", or None when there is none |
| SearchIntents.IsText | packages/react/src/search/hooks/useSearchIntents.js:113 | `typeFilter === TYPE_FILTER.TEXT` for a resource |
| SearchIntents.NameFor | packages/react/src/search/hooks/useSearchIntents.js:106-108 | `Object.entries(TYPE_FILTER).find` returns the name of the FIRST entry with that value, and finds nothing exactly when no entry has it |
| SearchIntents.QueryKey | packages/react/src/search/hooks/useSearchIntents.js:105-115 | The query key of one remaining resource, or the TypeError of `queryParam[0]`; stated by `QueryKeyCases` |
| SearchIntents.QueryKeyCases | packages/react/src/search/hooks/useSearchIntents.js:105-115 | The key is `query` for the TEXT type. Otherwise it throws exactly when TYPE_FILTER has no entry with the resource's type, and else it is the lower-cased name of the first entry with that type and contains no upper-case letter |
| SearchIntents.RawValues | packages/react/src/search/hooks/useSearchIntents.js:109 | The query values are the resource's raw values, in order, one per value |
| SearchIntents.Assign | packages/react/src/search/hooks/useSearchIntents.js:117 | After `acc[key] = v` the key is present with value `v`, keys are the old keys plus `key`, and every other key keeps its value |
| SearchIntents.AssignPlacement | packages/react/src/search/hooks/useSearchIntents.js:117 | A new key is appended at the end. An existing one is overwritten without growing the object |
| SearchIntents.AssignInPlace | packages/react/src/search/hooks/useSearchIntents.js:117 | An existing key is overwritten at its first position: the result is the old object with only that entry replaced |
| SearchIntents.AssignKeepsUnique | packages/react/src/search/hooks/useSearchIntents.js:117 | Assignment never duplicates a key |
| SearchIntents.QueryParamsOf | packages/react/src/search/hooks/useSearchIntents.js:104-120 | The reduce from `{}` as a left fold of `Assign` steps; its properties are in the lemmas below |
| SearchIntents.BuildQueryParams | packages/react/src/search/hooks/useSearchIntents.js:104-120 | The reduce loop computes exactly `QueryParamsOf(remaining resources)`, throwing or not |
| SearchIntents.QueryParamsFault | packages/react/src/search/hooks/useSearchIntents.js:104-120 | The reduce throws exactly when some remaining resource has no query key |
| SearchIntents.QueryParamsUnique | packages/react/src/search/hooks/useSearchIntents.js:104-120 | The query parameters have unique keys, at most one per remaining resource |
| SearchIntents.QueryParamsKeys | packages/react/src/search/hooks/useSearchIntents.js:104-120 | The keys are exactly the query keys of the remaining resources |
| SearchIntents.QueryParamsLastWins | packages/react/src/search/hooks/useSearchIntents.js:104-120 | Each key holds the raw values of the last remaining resource with that key |
| SearchIntents.ListingPrecedenceExample | packages/react/src/search/hooks/useSearchIntents.js:72-127 | A category resource given before a gender resource still gives the path "women/bags" with empty query parameters |
| SearchIntents.ListingTextQueryExample | packages/react/src/search/hooks/useSearchIntents.js:72-127 | A free-text resource gives no slug path and the query parameters `{query: ["silk"]}` |
| SearchIntents.TemplateText | packages/react/src/search/hooks/useSearchIntents.js:64-69 | A template literal renders a missing field as "undefined" and a null one as "null" |
| SearchIntents.RedirectAndProductExamples | packages/react/src/search/hooks/useSearchIntents.js:63-70 | Concrete REDIRECT and PRODUCT results: "/foo/bar" and "/shopping/dress-123"; a missing redirect url gives "/undefined" and a null product slug "/shopping/null" |
| JsText.Join | packages/react/src/search/hooks/useSearchIntents.js:101 | `Array.prototype.join`: the parts with the separator between consecutive ones |
| JsText.ToLower | packages/react/src/search/hooks/useSearchIntents.js:114 | `toLowerCase` keeps the length, turns each upper-case ASCII letter into its lower-case letter, changes nothing else, so leaves no upper-case letter and is the identity on lower-case text |
| JsText.Split | packages/redux/src/payments/actions/factories/chargeFactory.ts:53 | `split` gives at least one piece, the pieces joined back with the separator are the input, no piece contains the separator, the input itself when the separator does not occur, and otherwise a first piece that ends at the first occurrence |
| JsText.FirstOccurrenceAfter | packages/redux/src/payments/actions/factories/chargeFactory.ts:53 | For a separator with no border, the first occurrence in `pre + sep + rest` is right after `pre` when `pre` does not contain it |
| ChargeFactory.ChargeIdFromLocation | packages/redux/src/payments/actions/factories/chargeFactory.ts:53 | `location?.split('charges/')[1]`, or "" when that piece is missing or empty; stated by `ChargeIdBetweenMarkers` and `ChargeIdEmpty` |
| ChargeFactory.ChargeIdBetweenMarkers | packages/redux/src/payments/actions/factories/chargeFactory.ts:53 | The charge id is the text after the first `charges/`, up to the next `charges/` or the end of the header |
| ChargeFactory.ChargeIdEmpty | packages/redux/src/payments/actions/factories/chargeFactory.ts:53 | The charge id is "" exactly when the header is missing, contains no `charges/`, or has nothing between the first `charges/` and the next one or the end |
| ChargeFactory.ChargeId | packages/redux/src/payments/actions/factories/chargeFactory.ts:53 | Reading the charge id throws exactly when a result is present without a `headers` object. A missing result short-circuits the whole optional chain |
| ChargeFactory.AfterCall | packages/redux/src/payments/actions/factories/chargeFactory.ts:50-69 | The action dispatched after the client call and how the thunk settles; stated by the three lemmas below |
| ChargeFactory.ChargeEvents | packages/redux/src/payments/actions/factories/chargeFactory.ts:46-69 | Everything the thunk does, in order; stated by `ChargeEventsOrder` |
| ChargeFactory.Store.Dispatch | packages/redux/src/payments/actions/factories/chargeFactory.ts:46-48 | `dispatch(action)` appends that action to the store's log and changes nothing else |
| ChargeFactory.Store.PostCharges | packages/redux/src/payments/actions/factories/chargeFactory.ts:51 | `await postCharges(id, data, config)` records the call with its id and data and settles with the given reply |
| ChargeFactory.RunChargeThunk | packages/redux/src/payments/actions/factories/chargeFactory.ts:46-69 | The thunk appends exactly `ChargeEvents` to the store's log and settles with the outcome `AfterCall` gives |
| ChargeFactory.ChargeEventsOrder | packages/redux/src/payments/actions/factories/chargeFactory.ts:46-51 | CHARGE_REQUEST is dispatched first and only once, then the client is called, then exactly one CHARGE_SUCCESS or CHARGE_FAILURE follows |
| ChargeFactory.ChargeSucceeds | packages/redux/src/payments/actions/factories/chargeFactory.ts:55-61 | On success CHARGE_SUCCESS carries `result.data` and the charge id of the `location` header, no failure is dispatched, and the whole result is returned |
| ChargeFactory.ChargeFailsOnRejection | packages/redux/src/payments/actions/factories/chargeFactory.ts:62-69 | On a client error CHARGE_FAILURE carries that error, it is rethrown, and no success is dispatched |
| ChargeFactory.ChargeFailsWithoutHeaders | packages/redux/src/payments/actions/factories/chargeFactory.ts:53-68 | A result without `headers`, or a missing result (whose `data` is then read), throws inside the `try` and takes the failure path with a TypeError |
| OmnitrackingDefinitions.GenericPageVisitedComposition | packages/core/src/analytics/integrations/Omnitracking/definitions.js:140-154 | GenericPageVisited is the common page parameters, then the common track and page parameters, then ten more, so it allows every common parameter |
| OmnitrackingDefinitions.SpecificPagesExtendCommon | packages/core/src/analytics/integrations/Omnitracking/definitions.js:155-213 | Checkout, Listing and Product page-visited each begin with all of the common page parameters and add more |
| OmnitrackingDefinitions.ProductPageAllowsProductId | packages/core/src/analytics/integrations/Omnitracking/definitions.js:193-213 | ProductPageVisited allows the product id parameter `productId` |
| OmnitrackingDefinitions.PageDefinitionsCoverPageViews | packages/core/src/analytics/integrations/Omnitracking/definitions.js:301-306 | The keys of the page definitions are exactly the values of the page-view event types, each of which is its own name |
| OmnitrackingDefinitions.TrackDefinitionsComposition | packages/core/src/analytics/integrations/Omnitracking/definitions.js:278-286 | There are no system-action parameters, and the track whitelist is the page-action parameters, then the common track and page parameters, then `val` and `tid` |
| OmnitrackingDefinitions.PageEventsFilter | packages/core/src/analytics/integrations/Omnitracking/definitions.js:312-336 | The keyword lists per page-view event type, over the `pageTypes` constants; stated by `PageEventsFilterKeys` |
| OmnitrackingDefinitions.PageEventsFilterKeys | packages/core/src/analytics/integrations/Omnitracking/definitions.js:312-336 | The keyword filter has non-empty lists for Listing, Product and Checkout page views only, and none for GenericPageVisited |
| OmnitrackingDefinitions.TrackEventsMapper | packages/core/src/analytics/integrations/Omnitracking/definitions.js:341-347 | The track events with their type and tid, over the `eventTypes` constants; stated by `TrackEventsTable` |
| OmnitrackingDefinitions.TrackEventsTable | packages/core/src/analytics/integrations/Omnitracking/definitions.js:341-347 | With distinct event names there are five entries, each with a tid. Exactly the sign-up, checkout-step and place-order entries have a type, all three with tid 10097. Add-to-cart has tid 16 and add-to-wishlist tid 35 |
| OmnitrackingDefinitions.UserGenderNormalises | packages/core/src/analytics/integrations/Omnitracking/definitions.js:349-357 | 0, 1 and 2 map to NotDefined, Male and Female, each name maps to itself, and applying the mapper twice is applying it once |


## Tables

The constant tables of the Omnitracking definitions are Dafny constants of
module `OmnitrackingDefinitions`. The lemmas in "## Model" state their
properties.

| constant | source | holds |
|---|---|---|
| ProductIdParameter | packages/core/src/analytics/integrations/Omnitracking/definitions.js:8 | `PRODUCT_ID_PARAMETER`, "productId" |
| ProductIdParameterFromBagWishlist | packages/core/src/analytics/integrations/Omnitracking/definitions.js:9 | `PRODUCT_ID_PARAMETER_FROM_BAG_WISHLIST`, "id" |
| CommonPageParams | packages/core/src/analytics/integrations/Omnitracking/definitions.js:15-102 | `commonPageParams`, in order |
| CommonTrackAndPageParams | packages/core/src/analytics/integrations/Omnitracking/definitions.js:107-135 | `commonTrackAndPageParams`, in order |
| GenericPageVisitedParams | packages/core/src/analytics/integrations/Omnitracking/definitions.js:141-154 | the GenericPageVisited list of `pageDefinitions`, spreads as concatenation |
| CheckoutPageVisitedParams | packages/core/src/analytics/integrations/Omnitracking/definitions.js:155-174 | the CheckoutPageVisited list of `pageDefinitions` |
| ListingPageVisitedParams | packages/core/src/analytics/integrations/Omnitracking/definitions.js:175-192 | the ListingPageVisited list of `pageDefinitions` |
| ProductPageVisitedParams | packages/core/src/analytics/integrations/Omnitracking/definitions.js:193-213 | the ProductPageVisited list of `pageDefinitions`, ending with `ProductIdParameter` |
| PageDefinitions | packages/core/src/analytics/integrations/Omnitracking/definitions.js:140-214 | `pageDefinitions`: the four page-visited lists by event name |
| PageActionParameters | packages/core/src/analytics/integrations/Omnitracking/definitions.js:216-276 | `pageActionParameters`, in order |
| SystemActionParameters | packages/core/src/analytics/integrations/Omnitracking/definitions.js:278 | `systemActionParameters`, empty |
| TrackDefinitions | packages/core/src/analytics/integrations/Omnitracking/definitions.js:280-286 | `trackDefinitions`, spreads as concatenation |
| PageActionEventTypes | packages/core/src/analytics/integrations/Omnitracking/definitions.js:292-295 | `pageActionEventTypes` |
| PageViewEventTypes | packages/core/src/analytics/integrations/Omnitracking/definitions.js:301-306 | `pageViewEventTypes` |
| UserGenderValuesMapper | packages/core/src/analytics/integrations/Omnitracking/definitions.js:349-357 | `userGenderValuesMapper`, numeric keys as the strings "0", "1", "2" |

## Behaviour taken from the code

Prose descriptions of these components suggest a few things the code does not
do. The model follows the code:
- The resolver can throw for the three documented request types, not only on
  an empty `values`:
  - `[...originalResources]` runs before the switch, so a missing resource
    list throws even for REDIRECT.
  - A remaining LISTING resource whose type has no `TYPE_FILTER` entry throws
    at `queryParam[0]`.
  - A resource of a slug type with an empty `values` throws inside the
    `findIndex` callback.
- The code promotes a resource only when it has `values.length <= 1` and a
  truthy `values[0].slug`, which means exactly one value.
- The whitelists are built by concatenating arrays, not by a set union, so
  nothing removes repeated names. The model keeps them as sequences.

## Left out

- The exported `useSearchIntents` hook body (`useSelector`, `useAction`,
  selectors and thunks) is React and Redux wiring, so it is not modelled.
- `buildSetFilters` and `urlJoin` (proper-url-join) are not part of this
  model. They are function parameters of the resolver. Query-string building
  and URL-join slash normalisation are not re-implemented.
- The `TYPE_REQUEST`, `TYPE_FILTER` and `FILTER_SLUGS_ORDER` constants are not
  part of this model. They are a `Constants` parameter, with `TYPE_FILTER` as
  its entry list in order. `SampleConstants` are sample values for the worked
  examples. Their TYPE_REQUEST values are placeholders.
- The analytics `pageTypes` and `eventTypes` constants are not part of this
  model. They are record parameters of `PageEventsFilter` and
  `TrackEventsMapper`.
- The function that applies the Omnitracking whitelists to a property bag is
  not part of this model. Only the tables and membership in them are modelled.
- Freedom from duplicates in the whitelists is not stated as a lemma. It is
  too expensive for the solver on lists of this length.
- JsText.ToLower: lower-cases ASCII letters only. Unicode case mapping is not
  modelled.
- `null` and `undefined` are told apart only for the string fields that a
  template literal or `join` renders (`MaybeText`). Elsewhere both are `None`.
  That matches how the code reads those values: `!searchIntents`, the spread
  of `resources` (which throws for either), and `?.` in the charge thunk.
- SearchIntents.Assign: keeps every key in insertion order. JavaScript lists
  integer-like keys (such as "12") first, in ascending order. The keys here are
  `query` and lower-cased TYPE_FILTER names, so this differs only if a
  TYPE_FILTER name were made of digits.
- ChargeFactory.RunChargeThunk: assumes `dispatch` does not throw. In the code
  the CHARGE_SUCCESS dispatch is inside the `try`, so a throwing reducer or
  middleware there would lead to a CHARGE_FAILURE dispatch and a rethrow of
  that error. `ChargeEventsOrder` therefore covers only dispatches that return.
- The resolver does not mutate the caller's array. In the model this holds by
  construction, because `seq` values are immutable. The in-place `splice` on
  the copy is modelled as reassigning the working list.
- Raw filter values are numbers or strings (`Raw`). Other JSON shapes are not
  modelled.
- The `config` argument of `postCharges` is passed through to the client
  unchanged, and the model does not record it.
- Promise and async scheduling are not modelled. What the client call settles
  with is an input (`Settled`).
- The CHARGE_* action-type strings are not modelled. The actions are
  constructors of `Action`.
- Context files that are not part of this model, each for the reason given:
  - `getAddress.ts`, which is HTTP I/O.
  - The create/fetch address and fetch size-guides factories, which repeat the
    charge thunk's REQUEST/SUCCESS/FAILURE pattern around foreign calls.
  - `resetProductsLists.ts`, which only dispatches two actions.
  - `state.types.ts`, which holds types only.
  - The returns actions index, which holds re-exports only.
  - The page analytics fixture.
