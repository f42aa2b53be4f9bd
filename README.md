# ProductWrapper: selected SKU and analytics payload

A Dafny model of the data shaping done by the `ProductWrapper` React component of a
product page (`react/ProductWrapper.js`). The component receives the fetched product, the
URL query and the store account, and

- builds the analytics ("pixel") events for the page: nothing when there is no product or no
  browser document, otherwise a `pageInfo` event followed by a `productView` event carrying
  the product object, and, as a side effect, writes the resolved SKU id into the product's
  `selectedSku` field;
- derives the SKU exposed to descendant components (`selectedItem`);
- holds the selected quantity in a state cell that starts at 1 and is overwritten by its setter.

Modules:

- `Wrappers`: `Option` (JavaScript `undefined`/`null`) and `Result` (a thrown TypeError).
- `Js`: truthiness of an optional string and Ramda's `head`/`last` (`undefined` on an empty array).
- `Catalog`: the product record, the `Product` object (its fetched fields are constant, only
  `selectedSku` is mutable), and `filter`/`find` by `itemId`.
- `Selection`: `SelectedItem` and the `QuantityState` cell.
- `PixelEvents`: the pure specification `PixelPayload`, built from one function per step,
  and the imperative `BuildPixelEvents`, which creates the `pageInfo` object, adds fields to it
  step by step and mutates the product, and is proved equal to the specification.

Behaviour the model keeps from the code:

- An unmatched `skuId` gives no selected item (`find` returns `undefined`); there is no
  fallback to the first item. `SelectedItem` states this.
- Every guard tests truthiness. An empty `categoryTree`, an empty `referenceId` or `sellers`
  list (the guards `length >= 0` hold for every array), empty `items` with no truthy
  `skuId`, and missing `items` with no truthy `skuId` (line 85) all throw a TypeError. They
  are modelled as `Failure` results, and the product is then left unchanged.
- An empty-string `skuId` counts as absent.
- The quantity setter accepts any value; no lower bound of 1 is enforced.

## Model

| member | source | states |
|---|---|---|
| `Catalog.FilterById` | react/ProductWrapper.js:61 | the result is a sub-multiset of `items` (nothing foreign is kept), every kept item carries the id, every item carrying it is kept, and an `undefined` id keeps nothing |
| `Catalog.FilterByIdCounts` | react/ProductWrapper.js:61 | each item occurs in the result exactly as often as in `items` when it carries the id, and not at all otherwise |
| `Catalog.FindById` | react/ProductWrapper.js:103 | `None` exactly when no item carries the id; otherwise the result is the item at the first position carrying it |
| `Catalog.FilterHeadIsFind` | react/ProductWrapper.js:60-61 | the first element of the filtered list (destructured `[sku]`) is exactly what `find` returns |
| `Selection.SelectedItem` | react/ProductWrapper.js:100-104 | with a truthy `skuId`: the first item carrying it, and none exactly when no item does (no fallback); otherwise the first item, none exactly when the product or its items are missing or empty; always one of the product's items; `ItemsOf` is the product's `items` read by `path`, or the empty list (line 100) |
| `Selection.QuantityState.constructor` | react/ProductWrapper.js:21 | the selected quantity starts at 1 |
| `Selection.QuantityState.OnChangeQuantity` | react/ProductWrapper.js:111 | the quantity becomes exactly the value passed, with no bounds check |
| `PixelEvents.CategoryFieldsOf` | react/ProductWrapper.js:43-51 | department name and id from the first node, category name from the last node, all four empty without a tree, and a TypeError on an empty tree |
| `PixelEvents.AnalyticsSkuId` | react/ProductWrapper.js:58 | the query's `skuId` when truthy, else the first item's id; `undefined` without items; a TypeError on empty items |
| `PixelEvents.AnalyticsSku` | react/ProductWrapper.js:60-61 | the SKU is the first item whose id equals the resolved id, and is absent exactly when items are missing or none matches |
| `PixelEvents.AddReferenceId` | react/ProductWrapper.js:67-71 | `productReferenceId` is the first reference's value and nothing else changes; unchanged without a SKU or reference list; a TypeError exactly on an empty list |
| `PixelEvents.AddSellerFields` | react/ProductWrapper.js:73-82 | list and sale prices (From and To alike) and both seller fields come from the first seller only and nothing else changes; unchanged without a SKU or sellers; a TypeError exactly on an empty list |
| `PixelEvents.SelectedSkuValue` | react/ProductWrapper.js:85 | the query's `skuId` when truthy, else the first item's id; a TypeError when items are missing or empty |
| `PixelEvents.PixelPayload` | react/ProductWrapper.js:38-85 | on success: the fixed event, type and page category, the account and URL, empty facets and stock-out lists, fields copied from the product, the category fields from the first and last node (or empty), `productEans` the one-element list of the chosen SKU's `ean`, `productReferenceId` from the SKU's first reference and the four prices and both seller fields from its first seller, each absent when the SKU or its list is absent, and `selectedSku` the truthy query id or the first item's id; the object as first created is `NewPageInfo` (lines 38-56) and the `ean` read is `EanOf` (line 63) |
| `PixelEvents.PixelPayloadFailure` | react/ProductWrapper.js:43-85 | exactly which inputs make the build throw, and which error comes first: empty category tree, empty items, empty references, empty sellers, missing items |
| `PixelEvents.AnalyticsSkuIsSelectedItem` | react/ProductWrapper.js:58-104 | after a successful build the SKU used for analytics is the page's selected item, and a selected item's id is the id written into the product |
| `PixelEvents.BuildPixelEvents` | react/ProductWrapper.js:23-94 | no events and no change without a product or document; otherwise the error of the specification with the product unchanged, or the events `[pageInfo, productView]` in that order, the second carrying the same product object, whose `selectedSku` is set |

## Left out

- Rendering: the JSX tree, `Helmet` head tags, `StructuredData`, `React.cloneElement` and
  the prop types (lines 117-146) have no data logic.
- `useRuntime` and `useDataPixel` (lines 19, 96): the account is a parameter, and dispatching
  the events (and suppressing it while loading) is outside the model.
- `window.location.href` and `typeof document` (lines 34, 46) are parameters: the URL and
  whether a document exists.
- `Number(categoryId)` (line 48) and the template-string rendering of prices and seller ids
  (lines 76-81): the category id is passed through as the string it arrives as, and prices are
  taken as already rendered strings; floating-point and `NaN` behaviour is not modelled.
- `useMemo` (lines 23, 94, 106-115): when the payload and the context value are recomputed,
  and their referential stability, are React runtime behaviour; the assembly of the context
  value is not modelled beyond its `selectedItem` and `selectedQuantity` parts.
- Missing nested values other than the list fields: category nodes, references, sellers and
  their offers are always complete records, so a seller without `commertialOffer` (which would
  throw at line 76) is not representable; scalar product fields are strings, never `undefined`.
- Non-string `skuId` values are not representable.
- Selection.QuantityState.OnChangeQuantity: takes the new quantity itself; a non-integer value, and
  React's updater form `setSelectedQuantity(q => ...)` that computes the new value from the old one,
  are not modelled.
