# Product store of a Next.js storefront, modelled in Dafny

The storefront keeps its catalogue in one in-memory product list, imported from
`data/products.json`. The route `src/pages/api/products.js` reads and changes that
list:

- GET looks a product up by slug, or lists the products filtered by search text and category.
- POST appends a product.
- PUT overwrites one product.
- DELETE removes one product.

Every write needs the header `Bearer <ADMIN_TOKEN>`. POST and PUT also run
`validateProduct` on the body. Around the route sit small pure helpers:

- the accessors of `src/lib/products.js`;
- the read-only route `pages/api/products.js`;
- the dashboard statistics;
- the `formatPrice` helper with its thousands separators;
- the three-way stock badge;
- the card's icon and detail link;
- the search filter of the index pages.

The model has one module per concern:

- `Text`: JavaScript's `toLowerCase`, `\s` and `includes`, the slug derivation, and `toString` on integers.
- `PriceFormat`: `formatPrice`.
- `Catalog`: the product record and `src/lib/products.js`.
- `Search`: the search predicate. The API and both index pages use the same one.
- `Responses`: the status plus JSON envelope that both routes send.
- `ProductsApi`: the read-write route. `ProductStore` is a class whose `products` field is the list it changes in place.
- `StaticProductsApi`: the read-only route.
- `Stock`: the thresholds.
- `Dashboard`, `ProductCard`, `Home`: the pages.

Behaviour of the code that the model keeps as it is:

- **Fields a body leaves out.** POST copies the body into the new record. A
  created record can therefore lack `description` or `inventory`, so those fields
  and `lastUpdated` are `Option`s.
- **Search can fail.** For a product whose name does not match, the search reads
  `description.toLowerCase()`. If the description is missing, that throws, and
  the route answers 500. Such a search is `None` in the model.
- **NaN in the dashboard.** A missing inventory turns the dashboard's total value
  into NaN. The model writes NaN as `None`.
- **Validation checks the body alone.** PUT does not validate the merged record.
- **Price 0 is rejected.** `!price` is true for 0.
- **Missing inventory is accepted.** `undefined < 0` is false.
- **Order of POST checks.** POST answers 400 on invalid input before it checks
  for a duplicate slug (409).
- **New ids can repeat.** A new id is `(length + 1).toString()`, and a body
  `id` overrides it.
- **PUT can change the slug.** A `slug` in the body overwrites the stored one,
  so PUT can change a slug and can create duplicate slugs. POST and DELETE keep
  slugs distinct.
- **`meta.total` is filtered.** It counts the filtered list, while
  `meta.categories` covers the whole store.
- **Unset admin token.** When `ADMIN_TOKEN` is unset, the expected header is
  the literal `Bearer undefined`.
- **The store.** In `src/pages/api/products.js`, the name `products` is
  never declared. The store methods use the list that `getAllProducts()`
  returns, which is evidently what was meant. The behaviour as written is kept
  separately (see Findings).

Inputs from outside the model:

- `process.env.ADMIN_TOKEN` is the parameter `adminToken`.
- `new Date().toISOString()` is the parameter `now`.
- The contents of `data/products.json` are the constructor argument of `ProductStore`.
- A failing dynamic import in `getServerSideProps` is the `None` argument of `Dashboard.ServerSideProps`.

## Model

| member | source | states |
|---|---|---|
| `Text.SlugProperties` | src/pages/api/products.js:84 | the slug derived from a name holds no whitespace, is lower case, and deriving a slug from it again gives the same slug |
| `Text.NatToStringRoundTrip` | src/pages/api/products.js:82 | the decimal text `toString` gives for a natural number reads back as that number |
| `PriceFormat.GroupShape` | src/pages/dashboard.js:7 | the comma insertion on a run of digits has no leading comma, a first group of 1 to 3 digits, three digits after every comma up to the next comma or the end, and removing the commas gives the digits back |
| `PriceFormat.FormatPriceShape` | components/ProductCard.js:5 | `formatPrice(n)` starts with `₹`, never puts a comma first, and without its commas is `n.toString()`; for n ≥ 0 the part after `₹` has the grouping shape |
| `PriceFormat.FormatPriceRoundTrip` | pages/dashboard.js:33 | for a non-negative price, the digits after `₹` with the commas removed read back as the price |
| `Catalog.AllProducts` | src/lib/products.js:3-5 | `getAllProducts` returns the list itself, unchanged |
| `Catalog.FindBySlug` | src/lib/products.js:7-9 | `getProductBySlug` returns nothing exactly when no product has the slug, and otherwise the first product that has it |
| `Catalog.IndexOfId` | src/pages/api/products.js:108 | `findIndex` on ids returns -1 exactly when no product has the id (a missing id matches none), else the first matching index |
| `Catalog.CategoriesExact` | src/lib/products.js:11-13 | `getCategories` has no duplicates, and lists a category exactly when some product belongs to it |
| `Catalog.CategoriesFirstSeenOrder` | src/lib/products.js:11-13 | `getCategories` lists categories in the order of their first occurrence in the list |
| `Search.SearchFilterDefined` | src/pages/api/products.js:41-47 | the search filter completes exactly when every product either matches by name or has a description |
| `Search.SearchFilterKeeps` | pages/index.js:46-49 | the filtered list is an order-preserving subsequence that keeps every occurrence of a product whose lower-cased name or description contains the lower-cased search, and no occurrence of any other product |
| `Search.EmptySearchKeepsAll` | pages/index.js:44-49 | the initial empty search keeps every product |
| `Search.SearchIgnoresCase` | pages/index.js:46-49 | searching for `s` and for `s` lower-cased gives the same result |
| `Search.CategoryFilterKeeps` | src/pages/api/products.js:50-54 | the category filter keeps, in order, every occurrence of the products whose category equals the given one and no other product |
| `Search.DescribedSearchCompletes` | src/pages/index.js:15-18 | a list whose products all have descriptions is filtered without error for every search |
| `ProductsApi.Violations` | src/pages/api/products.js:15-24 | the validation error list is empty exactly when name (length ≥ 2), a positive price and a non-empty category are present and any inventory given is ≥ 0 |
| `ProductsApi.ViolationsReport` | src/pages/api/products.js:17-22 | each of the four messages is reported exactly when its check fails (name missing or shorter than 2; price missing, 0 or negative; category empty; inventory below 0), nothing else is reported, and the messages come in the order the checks run, so none repeats |
| `ProductsApi.ValidateProduct` | src/pages/api/products.js:15-24 | pushing one message per failed check yields the error list, empty exactly for an acceptable body |
| `ProductsApi.NewRecordProperties` | src/pages/api/products.js:81-88 | a created record is well formed and keeps the body's name, price, category, description and inventory; its slug is derived from the name and holds no whitespace; its rating is the body's, or 4.0 when that is missing or 0; its review count is the body's, or 0 when that is missing; its id is the body's, or else `count + 1` in decimal; its timestamp is `now` |
| `ProductsApi.CreatedIdMayRepeat` | src/pages/api/products.js:82-83 | after a deletion, or through a body id, a created record can receive the id of a record already stored |
| `ProductsApi.MergeProperties` | src/pages/api/products.js:118-122 | an accepted update of a well-formed record is well formed, keeps the matched id and sets the timestamp |
| `ProductsApi.ListingKeeps` | src/pages/api/products.js:30-54 | the GET listing is an order-preserving subsequence keeping every occurrence of the products that mention the search (if given) and have the category (if given), and no occurrence of any other product |
| `ProductsApi.GetBySlug` | src/pages/api/products.js:33-38 | GET with a slug answers 200 with the first product carrying it, or 404 exactly when none does |
| `ProductsApi.GetList` | src/pages/api/products.js:40-68 | GET without a slug answers 500 exactly when the search hits a product with no description whose name does not match; otherwise it answers 200 with the listing, meaning every occurrence of the selected products in store order; `meta.total` is the listing's length and `meta.categories` the categories of the whole store |
| `ProductsApi.AsWrittenWriteStatus` | src/pages/api/products.js:74-146 | as written, an unauthorised write answers 401, an authorised write answers 400 exactly for an invalid POST body, and every other authorised write answers 500 |
| `ProductsApi.AsWrittenRejectsValidPost` | src/pages/api/products.js:81-99 | as written, a valid authorised POST of a new product is answered with 500 |
| `ProductsApi.ProductStore.constructor` | src/lib/products.js:1 | the store starts as the imported product list |
| `ProductsApi.ProductStore.Get` | src/pages/api/products.js:27-69 | GET leaves the store alone, and its answer is the GET response for the current list and query |
| `ProductsApi.ProductStore.Post` | src/pages/api/products.js:74-96 | POST moves the store from its list before to its list after as `PostOutcome` says: 400 with the full error list for an invalid body and 409 for a slug already stored, both leaving the list unchanged; otherwise the new record is appended last and answered with 201. It keeps records well formed and slugs distinct |
| `ProductsApi.PostPreserves` | src/pages/api/products.js:81-96 | a POST outcome keeps every record well formed and the slugs distinct; it answers 201 exactly when the list changed, and then the list grew by one |
| `ProductsApi.PostThenGetBySlug` | src/pages/api/products.js:33-38 | after a POST answered 201, GET with the new record's slug answers 200 with exactly that record |
| `ProductsApi.ProductStore.Put` | src/pages/api/products.js:106-123 | PUT moves the store as `PutOutcome` says: 404 for an unknown id before any validation and 400 for an invalid body, both leaving the list unchanged; otherwise only the first record with that id is replaced by the merge of that record and the body, and the new record is answered with 200. It keeps the length and well-formedness |
| `ProductsApi.PutPreserves` | src/pages/api/products.js:106-123 | a PUT outcome keeps the length and well-formedness; on 200 the replaced record keeps its id and carries the timestamp; on any other status the list is unchanged |
| `ProductsApi.ProductStore.Delete` | src/pages/api/products.js:133-140 | DELETE moves the store as `DeleteOutcome` says: 404 with no change for an unknown id; otherwise the first record with that id is removed, the others keep their order, and the removed record is answered with 200. It keeps records well formed and slugs distinct |
| `ProductsApi.DeletePreserves` | src/pages/api/products.js:133-140 | a DELETE outcome keeps every record well formed and the slugs distinct; the list shrinks by one exactly when it answers 200, and is unchanged otherwise |
| `ProductsApi.DeleteThenGetBySlug` | src/pages/api/products.js:33-38 | when slugs are distinct, after a DELETE answered 200, GET with the removed record's (non-empty) slug answers 404 |
| `ProductsApi.ProductStore.Handle` | src/pages/api/products.js:7-151 | GET is answered without change; a write without `Bearer <ADMIN_TOKEN>` answers 401 and changes nothing, before any validation; an authorised POST, PUT or DELETE has exactly the outcome `PostOutcome`, `PutOutcome` or `DeleteOutcome` describes; any other method answers 405; every error status leaves the store unchanged; 201 is answered exactly when a POST changed the store, which then grew by one; a DELETE that changes the store shrinks it by one; PUT keeps the length; well-formed records stay well formed |
| `StaticProductsApi.Handle` | pages/api/products.js:3-27 | a method other than GET answers 405; GET with a slug answers 404 exactly when no product has the slug, else 200 with the first one that has it |
| `StaticProductsApi.ListingMeta` | pages/api/products.js:16-23 | GET without a slug answers with every product in order, `meta.total` equal to their number, and `meta.categories` duplicate-free, exactly the categories present, in first-seen order |
| `StaticProductsApi.AgreesWithReadWriteRoute` | pages/api/products.js:16-23 | without slug, search or category, the read-only route answers exactly as the read-write route does |
| `Stock.LevelOf` | src/pages/dashboard.js:112-123 | the stock level is "in stock" exactly for inventory above 10, "low" for 1 to 10, and "out" for 0 or less or a missing inventory |
| `Stock.LabelsDiffer` | src/pages/dashboard.js:119-123 | the three status labels are pairwise different |
| `Dashboard.LowStockItemsKeeps` | src/pages/dashboard.js:4 | the low-stock list keeps, in order, every occurrence of the products with inventory below 5 and no other product, and is no longer than the product list |
| `Dashboard.LowStockCount` | src/pages/dashboard.js:145 | the low-stock list has exactly as many entries as there are positions in the list holding a product with inventory below 5 |
| `Dashboard.TotalValueDefined` | src/pages/dashboard.js:146 | the total value is a number, not NaN, exactly when every product has an inventory |
| `Dashboard.TotalValueAppend` | src/pages/dashboard.js:146 | the total value of no products is 0, and appending a product adds its price times its inventory |
| `Dashboard.ServerSidePropsStats` | src/pages/dashboard.js:137-158 | `totalProducts` is the number of products; `lowStock` is the number of positions holding a product with inventory below 5, which is at most `totalProducts`; `totalValue` is the total value; when loading fails the props are an empty list with all statistics 0 |
| `Dashboard.LowStockThresholdsDiffer` | src/pages/dashboard.js:112-145 | a product counted as low stock is never labelled "In Stock"; an inventory of 7 is labelled "Low Stock" but not counted; an inventory of 0 is counted but labelled "Out of Stock" |
| `Dashboard.StaticCounts` | pages/dashboard.js:57-62 | the static dashboard shows 3 products and 0 low on stock |
| `Dashboard.StaticTotalValue` | pages/dashboard.js:68 | the static dashboard's total value is 5578935, shown as `₹5,578,935` |
| `Dashboard.PrintsTotal` | pages/dashboard.js:33 | `formatPrice(5578935)` is `₹5,578,935` |
| `Dashboard.StaticStatusLabels` | pages/dashboard.js:99-104 | the MacBook (15) and the Sony headphones (25) are "In Stock", the iPhone (8) is "Low Stock" |
| `ProductCard.BadgeColour` | components/ProductCard.js:29-33 | the badge is green exactly for inventory above 10, yellow for 1 to 10, and red for 0 or less or a missing inventory |
| `ProductCard.Icon` | components/ProductCard.js:12-13 | the icon is the laptop for Laptops, the phone for Phones, and the headphones for every other category |
| `ProductCard.DetailLink` | components/ProductCard.js:41 | the detail link is `/products/` followed by the product's slug |
| `ProductCard.DetailLinkInjective` | components/ProductCard.js:41 | two products get the same link exactly when they have the same slug |
| `ProductCard.PriceTextShape` | components/ProductCard.js:22 | for a non-negative price, the card shows `₹` and the grouped digits of the price, which without commas are the price's decimal digits (`PriceFormat.FormatPriceShape` covers negative prices) |
| `Home.ProductsFromResponse` | src/pages/index.js:12 | a response without `data` yields the empty list, and one with data yields that list |
| `Home.StaticSearchAlwaysCompletes` | pages/index.js:6-49 | on the constant list, every search completes and keeps, in order, exactly the matching products |
| `Home.InitialSearchShowsAll` | pages/index.js:44-79 | with the initial empty search all three products are shown and "No products found" is not |
| `Home.NoDataShowsNothing` | src/pages/index.js:12-47 | a response without `data` leaves nothing to show for any search, so "No products found" appears |
| `Home.FetchedInitialView` | src/pages/index.js:7-18 | the initial empty search shows every fetched product, and the view is empty exactly when nothing was fetched |

## Findings

| source | as written | input that shows it | evidently intended | confidence | as-written member | corrected member |
|---|---|---|---|---|---|---|
| src/pages/api/products.js:82 | lines 82, 91, 95, 108, 118-119, 123, 135 and 139 use `products`, but lines 1-5 import only the three accessor functions, so those references throw a ReferenceError that the `catch` blocks answer with 500 | an authorised POST with body `{name: "Pixel 8", price: 59999, category: "Phones", inventory: 4}` is answered 500, not 201; every authorised PUT and DELETE is answered 500 | the writes act on the list `getAllProducts()` returns | high (not executed) | `ProductsApi.AsWrittenWriteStatus`, `ProductsApi.AsWrittenRejectsValidPost` | `ProductsApi.ProductStore.Post` |

## Left out

- Rendering is not modelled: JSX, Tailwind classes, `Link` navigation and the Header/Layout components carry no behaviour beyond markup.
- `res.setHeader("Allow", …)` in the 405 branch is not modelled. The response is a status code and an envelope only.
- `fetch`, `useState` and `useEffect` are left out. The index page receives the fetched list as a value.
- `console.log` is left out.
- The contents of `data/products.json` are not part of this model. The store starts from any given list.
- `Text.Lower`: lower-cases the ASCII letters only. JavaScript's `toLowerCase` also maps non-ASCII letters.
- `ProductsApi.NameRejected`: measures a name in Unicode code points. JavaScript's `length` counts UTF-16 code units, so the two differ for characters outside the Basic Multilingual Plane.
- Request bodies carry the ten product fields with their intended JSON types. Other keys are not modelled. Neither are mistyped values, such as a price sent as a string.
- Query parameters are single strings. An empty string stands for a missing one. Repeated parameters, which arrive as arrays, are not modelled.
- Some 500 answers are not modelled: those from a missing `req.body` and from a stored record without a `name`.
- Ratings are `real` values that are only stored and compared. Floating-point rounding does not matter for these operations.
- Prices, inventories, review counts, the dashboard's total value and the next id (`length + 1`) are unbounded integers. In JavaScript they are double-precision numbers, so the model differs in three ways. Above 2^53, sums and products are no longer exact. From 10^21 upwards, `toString` writes exponent notation (`₹1e+21`), which `NatToString` and `Group` never produce. A fractional price passes validation, but `Body.price` cannot hold it, and `formatPrice` would also put commas into the digits after the decimal point.
- src/pages/admin.js is left out. It is UI state, `fetch`, `window.confirm`, `parseFloat`/`parseInt`, and a locale-library `formatPrice`. Its icon table repeats the card's icon rule.
- pages/admin.js is left out. Its figures are hard-coded text.
- src/components/ProductCard.js is left out. It uses `toLocaleString`, a locale library, and the same stock thresholds that `Stock.LevelOf` models.
- The product pages under pages/products/ and src/pages/products/ are not part of this model. That excludes related products and sort orders.
- next.config.js is not part of this model.
- Concurrency is not modelled. Requests are handled one at a time, each to completion, as sequential method calls.
