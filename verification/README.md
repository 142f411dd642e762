# Offers dashboard: verified model of the offer orchestration logic

This project models, in Dafny, the small pieces of real logic inside the
offers dashboard of a product-catalog admin client:

- the offers page (`src/pages/offers.jsx`): the four collection fetchers and
  the page state they write, the tolerant list decoder, the two single-offer
  reads, the five lifecycle mutations with their refresh sequencing, and the
  `all` / `active` / `inactive` tab filter of the offers grid;
- the add-offer form (`src/components/addModals/offer.jsx`): its three
  loaders, the guards of `handleSubmit`, the creation payload with its
  21-field product snapshot, the reset on success and the error message on
  failure;
- the categories page (`src/pages/categories.jsx`): the conditional list
  update, the category count, the product total and the nested-section test.

Every remote call is an abstract outcome (`Http.Outcome`: thrown, or a
response with an `ok` flag and a parsed body or an unparseable one). Page and
form state are immutable records, and each completion or mutation is a pure
step function. JavaScript values are `JsValue.Value`, a JSON value plus
`undefined`. The model keeps JavaScript's truthiness and property access:
reading a property of `null` throws, and reading a missing key yields
`undefined`.

Modules: `Wrappers` (Option, Result), `JsValue`, `JsString` (`trim`,
`Number`), `Http`, `TabFilter`, `OfferFetchers`, `OfferMutations`,
`OfferSnapshot`, `AddOffer`, `CategoriesPage`.

The model follows the code, including where it behaves otherwise than a
reader of the screens would expect:

- The reads of the offers and categories pages never look at the status.
  (The add-offer loaders use axios, which rejects a non-2xx response, so
  they keep the slot.) `fetchOffers` stores the parsed body raw, whatever
  its shape. When the call or the parse throws it keeps the old offers,
  although one would expect the slot to become empty, as the other three
  slots do. An error
  body such as `{message: ...}` therefore ends up in the offers slot, and
  the grid cannot render it (`TabFilter.Visible` is an error for any
  non-array).
- Toggle, deactivate, delete and delete-product refresh after every response,
  success or not. Only `addProductToOffer` checks `res.ok`.
- The offers page never checks the token. A missing token is sent as
  `Bearer null`. Only the add-offer form refuses to submit without one.
- An unparseable date is not a validation error. `toISOString` throws
  outside the `try`, so the submit handler stops with no message and sends
  nothing.
- The snapshot is not a verbatim copy of the product. It holds a fixed list
  of 21 fields: fields outside the list are dropped, and missing ones are
  `undefined`.
- The category and section loaders of the form fall back to the `products`
  key. The product loader has no fallback, so a body without `products`
  stores `undefined`.
- Unlike the offers page, the form's loaders do not accept a bare array:
  an array (or any other non-object) body stores `undefined`. A `null`
  body makes the key read throw inside `then`; the error is only logged
  and the slot keeps its value.
- `fetchOfferById`, `fetchOfferProducts`, `addProductToOffer` and
  `deleteProductFromOffer` are defined on the offers page but never called
  there; only toggle, deactivate and delete are wired to buttons. They are
  modelled as the functions they are.
- The form has no control for `isActive`: it is set only by the reset after
  a success, so in practice the payload always carries `true`.

## Model

| member | source | states |
|---|---|---|
| `TabFilter.Keep` | src/pages/offers.jsx:179-183 | the callback keeps every offer on `all`, keeps by truthy `isActive` on `active` and by falsy `isActive` on `inactive` (throwing exactly for a null or undefined offer there), and keeps nothing on any other tab |
| `TabFilter.FilterSeq` | src/pages/offers.jsx:179-183 | the filter succeeds exactly when the callback succeeds on every offer; its result is a subsequence of the input holding only offers the callback keeps |
| `TabFilter.Visible` | src/pages/offers.jsx:179-183 | a non-array offers slot throws; for an array the filter succeeds exactly when the callback does on every offer, and yields a subsequence of kept offers |
| `TabFilter.AllTabIsIdentity` | src/pages/offers.jsx:179-180 | the `all` tab lists every offer unchanged and in order |
| `TabFilter.ActiveTabSelects` | src/pages/offers.jsx:179-181 | `active` succeeds exactly when every offer is readable and then keeps exactly the offers with truthy `isActive`, in order |
| `TabFilter.InactiveTabSelects` | src/pages/offers.jsx:179-182 | `inactive` succeeds under the same condition and keeps exactly the offers whose `isActive` is falsy, in order |
| `TabFilter.UnknownTabIsEmpty` | src/pages/offers.jsx:179-183 | any other tab value makes the callback return undefined, so nothing is listed |
| `TabFilter.Select` | src/pages/offers.jsx:181-182 | reference list for a tab: contains exactly the offers of the requested activeness and is a subsequence of the input |
| `TabFilter.SelectPartitions` | src/pages/offers.jsx:181-182 | the active and inactive lists together hold every offer exactly as often as the input, and their lengths sum to its length |
| `TabFilter.ActiveInactivePartition` | src/pages/offers.jsx:181-182 | when both tabs filter without throwing: sizes add up, multisets add up, no offer in both, membership is exactly by `isActive` |
| `TabFilter.VisibleIsSubsequence` | src/pages/offers.jsx:179-183 | every successfully filtered list is an order-preserving subsequence of the stored array and never longer; a non-array offers slot cannot be filtered |
| `TabFilter.SubsequenceNoLonger` | src/pages/offers.jsx:179-183 | a subsequence is never longer than the sequence it is drawn from |
| `OfferFetchers.Decode` | src/pages/offers.jsx:37 | the decoder keeps a bare array, takes a truthy entry under the key from an object and `[]` otherwise, gives `[]` for scalars, and throws only on null |
| `OfferFetchers.FetchStep` | src/pages/offers.jsx:19-65 | a fetcher writes only its own slot; offers takes the raw body or stays as it was on a throw; a list slot takes the decoded list or `[]` on any throw |
| `OfferFetchers.ThrownFetchIsolated` | src/pages/offers.jsx:26-64 | a thrown fetch leaves the offers slot unchanged and resets a list slot to `[]`, with the other slots untouched |
| `OfferFetchers.FetchStepsCommute` | src/pages/offers.jsx:12-17 | completions of fetches on different slots commute, so the initial four fetches give the same state in any completion order |
| `OfferFetchers.InitialLoadAnyOrder` | src/pages/offers.jsx:12-17 | the four fetches started on mount reach the same page in either completion order, and when all four throw the page keeps its initial empty lists |
| `OfferFetchers.LastFetchWins` | src/pages/offers.jsx:19-65 | a second completion on the same slot overrides the first, except that a throwing offers fetch keeps the earlier value |
| `OfferFetchers.FetchOfferById` | src/pages/offers.jsx:67-77 | the single-offer read returns the parsed body, and null when the call or the parse throws |
| `OfferFetchers.FetchOfferProducts` | src/pages/offers.jsx:79-90 | the offer-products read returns the body when it is an array and `[]` for any other body or a throw |
| `Http.BearerHeader` | src/pages/offers.jsx:10-22 | the header carries the stored token, or the text `null` when there is none |
| `OfferMutations.AddProductBody` | src/pages/offers.jsx:100 | the add-product body has the single key `products`, holding a one-element array with exactly the given product |
| `OfferMutations.RequestFor` | src/pages/offers.jsx:92-159 | every mutation request carries the bearer header built from the token as it is; only add-product has a body |
| `OfferMutations.Perform` | src/pages/offers.jsx:92-159 | a mutation never changes products, categories or sections, and the page afterwards is either unchanged or exactly the offers refresh applied to it |
| `OfferMutations.AddProductRefreshesOnlyOnOk` | src/pages/offers.jsx:102-110 | add-product refreshes offers exactly when the response is ok; a non-ok response or a throw leaves the page unchanged |
| `OfferMutations.OtherMutationsRefreshOnAnyStatus` | src/pages/offers.jsx:113-159 | toggle, deactivate, delete and delete-product refresh after any response whatever its status, and never after a throw |
| `OfferMutations.OnlyRefreshChangesOffers` | src/pages/offers.jsx:92-159 | with a refresh that yields no body the page is exactly as before; otherwise the offers slot is either unchanged or exactly what the server sent |
| `OfferSnapshot.SnapshotFieldsAreDistinct` | src/components/addModals/offer.jsx:63-85 | the snapshot copies 21 distinct fields |
| `OfferSnapshot.SnapshotOf` | src/components/addModals/offer.jsx:63-85 | a snapshot has exactly the listed keys, each holding the product's value, and building one throws only for a null or undefined product |
| `OfferSnapshot.SnapshotOfExactProduct` | src/components/addModals/offer.jsx:63-85 | round trip: the snapshot of a product with exactly the listed fields is that product's field map |
| `OfferSnapshot.Snapshots` | src/components/addModals/offer.jsx:63 | mapping succeeds exactly for an array of readable products; the result keeps length and order, and entry i is the snapshot of product i with the same `id` |
| `OfferSnapshot.SnapshotsOfOneExactProduct` | src/components/addModals/offer.jsx:63-85 | a one-product list whose product has exactly the listed fields maps to that product's field map |
| `OfferSnapshot.SnapshotsMirrorProducts` | src/components/addModals/offer.jsx:63-85 | every mapped entry holds exactly the listed keys, each equal to its product's value |
| `AddOffer.LoadProducts` | src/components/addModals/offer.jsx:17-22 | the product loader writes only the products slot, and an ok object body stores its `products` entry with no fallback |
| `AddOffer.LoadCategories` | src/components/addModals/offer.jsx:24-29 | the category loader writes only the categories slot |
| `AddOffer.LoadSections` | src/components/addModals/offer.jsx:31-36 | the section loader writes only the sections slot |
| `AddOffer.Load` | src/components/addModals/offer.jsx:17-36 | a rejected axios call and an ok `null` body leave the slot unchanged; an unparseable ok body, a bare array or any other non-object body stores `undefined` |
| `AddOffer.LoadersFallBackToProducts` | src/components/addModals/offer.jsx:24-36 | the category and section loaders take their own key when truthy, else the `products` entry, else undefined |
| `AddOffer.MissingToken` | src/components/addModals/offer.jsx:40-41 | the login guard fires exactly when the stored token is falsy as a JavaScript value: absent (`null`) or empty |
| `AddOffer.NoProductsLoaded` | src/components/addModals/offer.jsx:49 | for an array the test is "length is zero", and only a null or undefined list throws |
| `AddOffer.BuildPayload` | src/components/addModals/offer.jsx:54-86 | the payload holds the trimmed texts, the unchanged `isActive`, the converted dates and ids and the snapshots; a bad date throws first, then an unmappable product list |
| `AddOffer.Submit` | src/components/addModals/offer.jsx:38-116 | nothing is sent unless there is a token, both selections and a non-empty product array; nothing sent means the form is unchanged; success resets the fields, failure keeps them and reports the failure message; a submit is rejected with an alert exactly when one of the three guards fails, and a null or undefined product list or an invalid date ends in an escaping exception (`Threw`), with no alert and nothing sent |
| `AddOffer.GuardsRunInOrder` | src/components/addModals/offer.jsx:40-52 | missing token is reported first, then a missing selection, then an empty product list, each sending nothing and changing nothing |
| `AddOffer.PayloadTextIsTrimmed` | src/components/addModals/offer.jsx:55-57 | the payload title, description and image (which `Submit` sends) have no whitespace at either end, and trimming them again changes nothing |
| `AddOffer.PayloadSelectionsAreNumericIds` | src/components/addModals/offer.jsx:58-62 | the payload carries `isActive` as chosen, and a selection printed from a numeric id becomes that number |
| `AddOffer.PayloadProductsMirrorLoaded` | src/components/addModals/offer.jsx:63-85 | the payload product list has the loaded list's length and order; entry i has product i's `id`, exactly the 21 fields, and product i's values |
| `AddOffer.ResetFields` | src/components/addModals/offer.jsx:101-108 | the success resets put every form field back to its initial value and keep the loaded products, categories and sections |
| `AddOffer.FailureMessage` | src/components/addModals/offer.jsx:111-114 | the failure text always starts with the fixed prefix; a truthy server `message` of any kind follows it as `String` prints it (a string as itself, a list joined with commas), and the fixed default follows it when there is no response, no parsed body or a falsy `message` |
| `AddOffer.FailureMessageJoinsErrorList` | src/components/addModals/offer.jsx:111-114 | a `message` that is a list of two strings is reported as the prefix followed by the two strings joined with a comma |
| `JsValue.ToJsString` | src/components/addModals/offer.jsx:112-113 | `String(v)`: a string prints as itself, a boolean as `true`/`false`, a number as digits that read back as that number (with a leading `-` when negative), and a list of one or two strings as those strings joined with commas |
| `AddOffer.CreatedResetsForm` | src/components/addModals/offer.jsx:101-108 | on success every form field is back to its initial value, and the loaded products, categories and sections are kept |
| `AddOffer.FailureMessageShapes` | src/components/addModals/offer.jsx:111-114 | the failure text is the fixed prefix plus a non-empty server `message`, and the prefix plus the fixed default when there is no response, no parsed body or no `message` |
| `AddOffer.FailedKeepsFormAndReportsMessage` | src/components/addModals/offer.jsx:109-115 | on failure no field is reset, and the message is the fixed prefix plus the server's `message`, or the fixed default when there is none |
| `AddOffer.SubmitEmbedsWholeProduct` | src/components/addModals/offer.jsx:38-116 | end to end: category "1", section "2" and one full product give a payload with ids 1 and 2 whose only product is that whole product |
| `JsString.Trim` | src/components/addModals/offer.jsx:55-57 | `trim` never lengthens a string, and gives the empty string exactly for an all-whitespace input |
| `JsString.TrimIsWhitespaceFreeMiddle` | src/components/addModals/offer.jsx:55-57 | `trim` keeps a middle slice of the input, cuts off only whitespace, and leaves no whitespace at either end |
| `JsString.TrimFixpoints` | src/components/addModals/offer.jsx:55-57 | `trim` leaves a string unchanged exactly when neither end is whitespace |
| `JsString.TrimIdempotent` | src/components/addModals/offer.jsx:55-57 | trimming twice is the same as trimming once |
| `JsString.ToNumber` | src/components/addModals/offer.jsx:61-62 | `Number` gives a value exactly when the trimmed selection is all decimal digits; that value is the decimal value of the digits, and 0 for an empty or all-whitespace selection |
| `JsString.NumberOfShowNat` | src/components/addModals/offer.jsx:184 | an option value printed from a numeric id converts back to that id |
| `CategoriesPage.FetchCategories` | src/pages/categories.jsx:9-19 | the list changes only to the truthy `categories` entry of a truthy body; a throw keeps it, and a body with a truthy `categories` entry replaces it |
| `CategoriesPage.StatsOf` | src/pages/categories.jsx:44-49 | the figures render only for an array; the count is its length and the total is the fold |
| `CategoriesPage.ProductsTotal` | src/pages/categories.jsx:49 | the running sum is defined exactly when every category has a count the sum can add as a number |
| `CategoriesPage.CountOf` | src/pages/categories.jsx:49 | a missing or falsy `productsCount` counts as 0, a number as itself and `true` as 1; only a null or undefined category, or a count that would make the sum a string, has none |
| `CategoriesPage.TotalAppend` | src/pages/categories.jsx:49 | appending a category raises the total by its defaulted count, and the total is defined exactly when both parts are |
| `CategoriesPage.TotalConcat` | src/pages/categories.jsx:49 | the total of two lists side by side is the sum of their totals |
| `CategoriesPage.TotalNonNegative` | src/pages/categories.jsx:49 | when every category's count is non-negative, so is the total |
| `CategoriesPage.ShowsSections` | src/pages/categories.jsx:91 | the nested-section guard holds for an array exactly when it is non-empty, for a string when it is non-empty, for an object when its numeric `length` is positive; it fails for a missing or falsy `sections`, a number, a boolean or an object without `length`; a null category throws |
| `CategoriesPage.RenderedSections` | src/pages/categories.jsx:91-99 | nothing is listed when the guard fails; when it holds, the card lists `sections` itself, and throws unless that is an array of non-null entries |
| `CategoriesPage.SectionsListedOnlyFromArrays` | src/pages/categories.jsx:91-99 | a card lists sections exactly when `sections` is a non-empty array of readable entries, and then lists that array; a guard passed by a non-array makes the card throw |

## Left out

- Transport: `fetch`, `axios`, URLs, most headers and JSON parsing are not modelled. Each call is an `Http.Outcome`. Only the `Authorization` header of the offers page is modelled.
- Rendering: React, JSX, styling and the `useState`/`useEffect` machinery are not modelled. State is a record, and each completion is an explicit step.
- Concurrency: the four initial fetches are not interleaved. Per-slot steps are shown to commute, but overlapping refreshes are not modelled as a race.
- Non-awaited refresh: toggle, deactivate, delete and delete-product call `fetchOffers()` without awaiting it. The model composes the mutation and the refresh into one step.
- Dates: `new Date(...).toISOString()` involves timezone and calendar logic. It is the parameter `toIso`, and `None` stands for the RangeError.
- JsString.ToNumber: reads only unsigned decimal digit strings (after JavaScript's whitespace trim; empty reads as 0). Signed, fractional, exponent, hexadecimal and `Infinity` forms give `None` in the model. JavaScript would give a number for them, and NaN for everything else. The select options are printed from numeric ids, so the modelled forms are the ones that occur.
- CategoriesPage.CountOf: a non-empty string, an array or an object as `productsCount` makes the JavaScript sum a string concatenation. The model gives `None` there, so `ProductsTotal` is undefined for such a list, and `StatsOf` gives no figures at all, losing the category count that the page still shows.
- CategoriesPage.ShowsSections: an object's `length` entry is compared with 0 only when it is a number or a boolean. A string, array or object entry would be converted by `Number` first; the model treats the comparison as false.
- Numbers are integers. Floating-point counts, prices and NaN are not modelled.
- JsValue.ToJsString: prints every integer in plain decimal. JavaScript switches to exponent notation from 10^21 on, which only matters for a numeric server `message`.
- Property access on arrays, strings, numbers and booleans always yields `undefined`, except `length`. None of the keys this code reads is a built-in property of those values.
- `localStorage`, `alert` and `console`: the token is `Option<string>`, alerts are the `SubmitEnd` tags and messages, and logging is dropped.
- The error body that `addProductToOffer` reads on a non-ok status is only logged, so it is not modelled.
- The category add, edit and delete modals imported by the categories page are not part of this model. Their sources are not available.
- The remote server is not modelled. End-to-end properties are stated in terms of what the refresh returns.
