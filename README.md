# Music store core, modelled in Dafny

This project models the core of a Next.js music-instrument store. It has
two halves.

- **The browser-side store and the code that uses it.** The store keeps
  products, brands, categories, orders and a cart under local-storage keys.
  Its functions are called by:
  - the pages that read or change the store: the catalogue, cart, brands,
    new arrivals, home-page categories and featured products, the quick-view
    dialog, the admin dashboard, the admin order list and the product form
  - the public catalogue routes (`/api/products`, `/api/filters`, `/api/orders`)
    and the admin routes (`/api/admin/products`, `/api/admin/orders`)
  - the image address helpers
- **The database-backed account routes** (`/api/auth/login`,
  `/api/auth/register`, `/api/auth/me`) and the sign-up form.

The API routes run on the server, where `localStorage` is not defined.
There the store's reads fall back to its seed lists. `getLocalProducts`
returns the module's seed catalogue array itself (lib/local-storage.ts:915),
and `getLocalOrders` returns a new empty list on every call
(lib/local-storage.ts:991). The store's writes throw on the server:

- `POST /api/orders` puts the order at the head of that fresh empty list,
  then `localStorage.setItem` throws. The route answers 500
  "Failed to create order" and no order is kept.
- `POST /api/admin/products` pushes the new product into the seed array
  (lib/local-storage.ts:959), then `setItem` throws (:960). The route
  answers 500 "Failed to create product". The product stays in the server's
  seed array, so the server process goes on serving it from
  `/api/products` and `/api/filters`, and the catalogue page, which fetches
  those routes, shows it. Pages that read the browser's store do not.

The route models take the store as a parameter. They state what a route
does when the store's reads and writes succeed, as they do in a browser;
the two POST models do not capture the server's failing write (see
"## Left out"). Where a row relates a route to a page, it compares them
over the same catalogue.

Each source file is one module:

| module | source file |
|---|---|
| `LocalStore` | `lib/local-storage.ts` (records in `Records`) |
| `ProductsApi` | `app/api/products/route.ts` |
| `FiltersApi` | `app/api/filters/route.ts` |
| `OrdersApi` | `app/api/orders/route.ts` |
| `AdminProductsApi` | `app/api/admin/products/route.ts` |
| `AdminOrdersApi` | `app/api/admin/orders/route.ts` |
| `ImageUtils` | `lib/image-utils.ts` |
| `ProductForm` | `components/admin/product-form.tsx` |
| `CatalogPage` | `app/catalog/page.tsx` |
| `CartPage` | `app/cart/page.tsx` |
| `QuickView` | `components/product-quick-view.tsx` |
| `AdminOrdersPage` | `app/admin/orders/page.tsx` |
| `Dashboard` | `app/admin/dashboard/page.tsx` |
| `BrandsPage` | `app/brands/page.tsx` |
| `ModernCategories` | `components/modern-categories.tsx` |
| `FeaturedProducts` | `components/featured-products.tsx` |
| `NewPage` | `app/new/page.tsx` |
| `AuthDb` | the account tables and `safeSQL` of `lib/db.ts` |
| `LoginRoute` | `app/api/auth/login/route.ts` |
| `RegisterRoute` | `app/api/auth/register/route.ts` |
| `MeRoute` | `app/api/auth/me/route.ts` |
| `RegisterPage` | `app/auth/register/page.tsx` |

Shared modules model the JavaScript behaviour the code relies on:

- `JsText`: `toLowerCase`, `includes`, `trim`, `toString` and `Number.parseInt`
- `JsValue`: the JSON values a request body field holds, their truthiness, and the text a bound query parameter is sent as
- `SeqUtil`: `filter`, `find`, `findIndex`, `map`, `reduce` and `slice`
- `Sorting`: `Array.prototype.sort` with a comparator
- `UrlParams`: `URLSearchParams`
- `Pagination`: `Math.ceil(total / limit)` and the page window
- `Wrappers`: `Option`

`NaN` is `None` throughout.

State that the source changes in place is modelled as classes:

- `LocalStore.Store` for the store
- `AuthDb.Backend` for the database and issued sessions
- `CatalogPage.Catalog`, `CartPage.CartView`, `QuickView.Dialog`,
  `AdminOrdersPage.OrdersView`, `ProductForm.FormState` and
  `RegisterPage.RegisterForm` for the page states

Their methods are proved against functions over the old state. Route
handlers that only compute an answer are functions, and so are the page
computations.

Inputs the code gets from outside are parameters:

- the clock (`now`)
- the outcomes of network calls (`accepted`, `success`, `signedIn`)
- whether a database query failed (`fails`)
- the id the database hands out (`newId`)
- the password hash and its check (`hash`, `verify`)

## Model

| member | source | states |
|---|---|---|
| LocalStore.NextId | lib/local-storage.ts:950 | The allocated id is at least 1, above every id in use, and 1 for an empty list. |
| LocalStore.ProductIndex | lib/local-storage.ts:966 | The index found holds the first product with the id; none exactly when no product has it. |
| LocalStore.OrderIndex | lib/local-storage.ts:1015 | The index found holds the first order with the id; none exactly when no order has it. |
| LocalStore.CartIndex | lib/local-storage.ts:1044 | The index found holds the first cart entry for the product; none exactly when there is no entry. |
| LocalStore.Store.SaveProduct | lib/local-storage.ts:948-962 | The product gets a fresh id above every stored id and both timestamps, and is appended; nothing else changes. |
| LocalStore.Store.UpdateProduct | lib/local-storage.ts:964-978 | The patch is merged into the first product with the id, with the update time stamped; with no such product nothing is written and the result is null. |
| LocalStore.Store.DeleteProduct | lib/local-storage.ts:980-988 | Deleted exactly when some product has the id; then every product with it is removed, otherwise the list is unchanged. |
| LocalStore.Store.SaveOrder | lib/local-storage.ts:998-1011 | The order gets a fresh id above every stored id and the time, and goes first in the list. |
| LocalStore.Store.UpdateOrder | lib/local-storage.ts:1013-1022 | The patch is merged into the first order with the id; with no such order nothing changes. |
| LocalStore.Store.AddToCart | lib/local-storage.ts:1042-1056 | An existing entry is raised by the quantity, otherwise a new entry is appended; the cart count rises by exactly the quantity; one entry per product is kept. |
| LocalStore.Store.RemoveFromCart | lib/local-storage.ts:1058-1062 | Exactly the product's entries go; the others stay in order. |
| LocalStore.Store.ClearCart | lib/local-storage.ts:1064-1067 | The cart is empty and its count is 0. |
| LocalStore.Store.UpdateCartQuantity | lib/local-storage.ts:1069-1082 | Without an entry nothing happens; a quantity of 0 or less removes the entry, any other replaces it; the count moves by the difference. |
| LocalStore.CartQuantityUpdate | lib/local-storage.ts:1037-1040 | Changing one entry's quantity changes the cart count by the difference. |
| LocalStore.CartQuantityRemove | lib/local-storage.ts:1037-1040 | Dropping one entry lowers the cart count by its quantity. |
| LocalStore.WithoutCartEntryIdempotent | lib/local-storage.ts:1059 | Removing a product's entries twice is removing them once. |
| ProductsApi.ApplyFilters | app/api/products/route.ts:19-59 | The eight filters, applied one after another, select exactly the active products that meet every filter the query turns on, in stored order. |
| ProductsApi.ListProducts | app/api/products/route.ts:6-95 | The answer is the requested page of the sorted selection; `total`, `totalPages`, `hasNext` and `hasPrev` are computed over the whole selection. |
| ProductsApi.ReadQueryDefaults | app/api/products/route.ts:7-17 | Without parameters: page 1, limit 12, no search, sort by name, no filter. |
| ProductsApi.NotANumberSelectsNothing | app/api/products/route.ts:33-39 | A category or brand that is not a number selects no product. |
| ProductsApi.CompareConsistent | app/api/products/route.ts:62-77 | Every sort key gives a comparator with a consistent sign. |
| ProductsApi.OrderedSelection | app/api/products/route.ts:62-77 | Sorting neither adds nor drops products: the listing is a permutation of the selection. |
| ProductsApi.PageSelected | app/api/products/route.ts:80-86 | For any parsed query, every product on the page is a stored product the query selects. |
| ProductsApi.PriceAscending | app/api/products/route.ts:64-65 | `price-asc` lists prices in non-decreasing order. |
| ProductsApi.PriceDescending | app/api/products/route.ts:66-67 | `price-desc` lists prices in non-increasing order. |
| ProductsApi.NewestFirst | app/api/products/route.ts:70-71 | `newest` lists creation times in non-increasing order. |
| ProductsApi.FeaturedFirst | app/api/products/route.ts:72-73 | `popular` lists every featured product before every other one. |
| ProductsApi.NamesAscending | app/api/products/route.ts:68-69 | `name` lists names in ascending order. |
| ProductsApi.UnknownSortKeepsOrder | app/api/products/route.ts:74-75 | An unknown sort key keeps the stored order. |
| Sorting.SortBySorted | app/api/products/route.ts:62 | With a consistent comparator the sort yields an ordered permutation of its input. |
| Sorting.SortByEqualKeepsOrder | app/api/products/route.ts:74-75 | When every pair compares equal, the sort keeps the order. |
| Pagination.TotalPagesCeiling | app/api/products/route.ts:81 | For a positive limit the page count is the least number of pages that holds every item. |
| Pagination.WindowContents | app/api/products/route.ts:82-83 | The window is the slice from `(page - 1) * limit` of at most `limit` items, empty past the end. |
| Pagination.WindowMembers | app/api/products/route.ts:82-83 | Whatever the page and limit, even `NaN`, a page holds only items of the list. |
| Pagination.WindowAt | app/api/products/route.ts:82-83 | Item k of a page is item `(page - 1) * limit + k` of the list. |
| Pagination.HasNextIffMoreItems | app/api/products/route.ts:92 | There is a next page exactly when items remain after the current one. |
| Pagination.PaginateSlice | app/api/admin/products/route.ts:11-21 | The admin page is the window of the whole list, with the total and the page count of the whole list. |
| UrlParams.GetFirst | app/api/products/route.ts:9-14 | `get` finds a value exactly when some pair has the key, and it is the first such pair's value. |
| UrlParams.GetOr | app/api/products/route.ts:7-14 | A present, non-empty value is used, otherwise the fallback. |
| JsText.ToLower | app/api/products/route.ts:23 | The same length, each character lower-cased. |
| JsText.ToLowerIdempotent | app/api/products/route.ts:23-29 | Lower-casing twice is lower-casing once. |
| JsText.IncludesAtIndex | app/api/products/route.ts:26-29 | `includes` holds exactly when the needle occurs at some index. |
| JsText.Trim | lib/image-utils.ts:8 | The result has no whitespace at either end. |
| JsText.TrimEmptyIff | lib/image-utils.ts:4 | A string trims to empty exactly when it is all whitespace. |
| JsText.TrimIdempotent | lib/image-utils.ts:8 | Trimming twice is trimming once. |
| JsText.ParseIntToString | app/catalog/page.tsx:99-112 | Parsing a printed number yields the number. |
| JsText.ParseIntHex | app/api/products/route.ts:7-8 | Text starting `0x` or `0X` followed by hexadecimal digits is read in base 16. |
| JsText.ParseIntBareHexPrefix | app/api/products/route.ts:7-8 | `0x` or `0X` with no hexadecimal digit after it is NaN. |
| JsValue.ParamText | app/api/auth/login/route.ts:20-24 | A bound string is sent as itself; only `null` and `undefined` become NULL; a truthy value is sent as non-empty text. |
| JsValue.ParamTextNumber | app/api/auth/login/route.ts:20-24 | A bound number is sent as text that reads back as the same number. |
| JsText.CompareStrings | app/api/products/route.ts:69 | The comparison answers -1, 0 or 1, and 0 exactly for equal names. |
| JsText.CompareStringsAntisymmetric | app/api/products/route.ts:69 | Swapping the names flips the sign. |
| JsText.CompareStringsTransitive | app/api/products/route.ts:69 | The name order is transitive. |
| FiltersApi.BrandFacetsExact | app/api/filters/route.ts:6-16 | A brand is offered exactly when it is active and has an active product, with the count of its active products. |
| FiltersApi.CategoryFacetsExact | app/api/filters/route.ts:6-24 | A category is offered exactly when it is active and has an active product, with the count of its active products. |
| FiltersApi.PriceRangeBounds | app/api/filters/route.ts:27-37 | The price range exists exactly when some product is active; then it is the least and the greatest active price. |
| OrdersApi.ProductFor | app/api/orders/route.ts:15 | The product found is stored and has the item's id; none exactly when no stored product has it. |
| OrdersApi.PriceItems | app/api/orders/route.ts:14-26 | The loop builds the order lines of the request and their total. |
| OrdersApi.LinesPriced | app/api/orders/route.ts:17-24 | Every line carries the stored name and price of a stored product. |
| OrdersApi.LinesKeepKnown | app/api/orders/route.ts:14-25 | One line per requested item whose product exists, in request order: the k-th line is the line for the k-th known item, with the found product's id, name and price and the item's quantity. |
| OrdersApi.UnknownItemIgnored | app/api/orders/route.ts:15-16 | An item whose product is unknown adds no line. |
| OrdersApi.AmountAppend | app/api/orders/route.ts:18 | Adding a line raises the total by its price times its quantity. |
| OrdersApi.PostOrder | app/api/orders/route.ts:14-35 | With a store whose write succeeds, the saved order is pending, carries the priced lines and their total, gets a fresh id and goes first in the store. |
| AdminProductsApi.ListProductsDefaults | app/api/admin/products/route.ts:7-21 | Without parameters the listing is the first twenty stored products, with counters over all of them. |
| AdminProductsApi.ToNumber | app/api/admin/products/route.ts:78-81 | A number converts to itself, and `undefined` to NaN. |
| AdminProductsApi.ToNumberText | app/api/admin/products/route.ts:78-81 | A number's decimal text converts back to the number. |
| AdminProductsApi.DraftOldPrice | app/api/admin/products/route.ts:79 | A falsy old price is left out. A non-zero number is kept. Non-blank text that is not a number is stored as NaN. |
| AdminProductsApi.Lookup | app/api/admin/products/route.ts:70-71 | A found brand or category is in the table with the requested id; none exactly when no entry has it. |
| AdminProductsApi.LookupTables | app/api/admin/products/route.ts:52-71 | Both fixed tables resolve exactly the ids 1 to 6. |
| AdminProductsApi.CreateProduct | app/api/admin/products/route.ts:73-93 | The coerced product is appended with a fresh id above every stored id, and that id is answered. |
| AdminOrdersApi.ListOrdersDefaults | app/api/admin/orders/route.ts:7-21 | Without parameters the listing is the twenty newest orders, with counters over all of them. |
| AdminOrdersApi.ListOrdersPastEnd | app/api/admin/orders/route.ts:11-13 | A page past the last order is empty. |
| ImageUtils.SafeImageUrl | lib/image-utils.ts:1-9 | A usable address comes back trimmed; a missing or blank one gives the fallback or the placeholder; the result is never empty. |
| ImageUtils.SafeImageUrlIdempotent | lib/image-utils.ts:1-9 | Cleaning a cleaned address again changes nothing, when the fallback is trimmed or blank. |
| ImageUtils.SafeImageUrlUntrimmedFallback | lib/image-utils.ts:5 | An untrimmed fallback is returned as given and trimmed on a second pass. |
| ImageUtils.ProductImageUrlChoice | lib/image-utils.ts:11-32 | The first primary picture wins when it has an address; otherwise the first picture with an address; otherwise the product's own address or the fallback. |
| ImageUtils.ProductImageUrl | lib/image-utils.ts:11-32 | The chosen address is never empty. |
| ImageUtils.AddressesInOrder | lib/image-utils.ts:38-45 | The collected addresses are the cleaned addresses of the usable pictures, in array order. |
| ImageUtils.AddressesEmpty | lib/image-utils.ts:38-45 | No address is collected exactly when no picture is usable. |
| ImageUtils.ProductImages | lib/image-utils.ts:34-61 | The loop builds the gallery. |
| ImageUtils.Gallery | lib/image-utils.ts:34-61 | The gallery is never empty. |
| ImageUtils.GalleryPlaceholder | lib/image-utils.ts:55-58 | The placeholder alone comes back exactly when no picture is usable and the product's own address is unusable. |
| ImageUtils.GalleryOrder | lib/image-utils.ts:34-61 | The gallery starts with the usable picture addresses in order. The product's own usable address is appended exactly when it is not already listed, and is the one extra entry when there is one. |
| ProductForm.GenerateSlug | components/admin/product-form.tsx:100-143 | A slug is lower-case letters, digits and single inner dashes. |
| ProductForm.GenerateSlugIdempotent | components/admin/product-form.tsx:100-143 | A generated slug regenerates to itself. |
| ProductForm.SlugFixed | components/admin/product-form.tsx:100-143 | A string that is already a slug is unchanged. |
| ProductForm.ReplacementTable | components/admin/product-form.tsx:103-139 | Every Cyrillic letter but the two signs becomes non-empty Latin text; the signs map to "" and so keep themselves. |
| ProductForm.HardSignSeparates | components/admin/product-form.tsx:132-141 | "съел" becomes "s-el": the kept hard sign turns into a dash. |
| ProductForm.YoIsDropped | components/admin/product-form.tsx:102-111 | "Ёж" becomes "zh": ё lies outside the replaced range `[а-я]`, so the table's "yo" is never used and the letter turns into a trimmed dash. |
| ProductForm.WithoutIndexSplice | components/admin/product-form.tsx:182-184 | Filtering out an index removes exactly that element, or nothing when it is out of range. |
| ProductForm.ImagePayloadPrimary | components/admin/product-form.tsx:201-206 | The submitted images keep order and addresses, and only the first is primary. |
| ProductForm.FormState.HandleInputChange | components/admin/product-form.tsx:145-158 | The field takes the value; a new name also sets the generated slug, only when creating. |
| ProductForm.FormState.RemoveImage | components/admin/product-form.tsx:182-184 | Exactly the image at the index is dropped. |
| CatalogPage.Toggle | app/catalog/page.tsx:153-162 | A selected id is removed, an unselected one appended. |
| CatalogPage.ToggleMembership | app/catalog/page.tsx:153-162 | Toggling flips the id's membership and no other's. |
| CatalogPage.ToggleTwice | app/catalog/page.tsx:153-162 | Toggling twice restores the set of selected ids. |
| CatalogPage.ToggleDistinct | app/catalog/page.tsx:153-162 | A selection without repeats keeps none. |
| CatalogPage.PrevPage | app/catalog/page.tsx:533 | Back goes one page down, never below 1. |
| CatalogPage.NextPage | app/catalog/page.tsx:568 | Next goes one page up, never past the last page. |
| CatalogPage.StepsStayInRange | app/catalog/page.tsx:533-568 | From a page in range both buttons stay in range and stop at the ends. |
| CatalogPage.BarShape | app/catalog/page.tsx:538-563 | The first, last and current pages are buttons, and hidden pages lie beyond an ellipsis. |
| CatalogPage.Each | app/catalog/page.tsx:105-110 | One parameter per selected id, in order. |
| CatalogPage.ReadsBack | app/catalog/page.tsx:98-115 | Reading each key back from the built query gives its value, or nothing when it is left out. |
| CatalogPage.HeaderRoundTrip | app/catalog/page.tsx:98-104 | The route reads back the page, the limit 12, the sort order and the search text it was sent. |
| CatalogPage.FirstIdsRoundTrip | app/catalog/page.tsx:105-110 | Of several selected brands or categories the route reads back only the first. |
| CatalogPage.BoundsAndFlagsRoundTrip | app/catalog/page.tsx:111-115 | Price bounds come back when narrower than the slider's range; the flags come back as set. |
| CatalogPage.Cleared | app/catalog/page.tsx:165-173 | Clearing selects nothing and turns every flag off. |
| CatalogPage.ClearedRange | app/catalog/page.tsx:165-173 | Clearing restores the loaded bounds, `null` ones included, or the full slider range before the filters load. |
| CatalogPage.Query | app/catalog/page.tsx:98-115 | A query is built exactly when the price range is not `[null, null]`; building it otherwise throws at `priceRange[1].toString()`. |
| CatalogPage.ClearedQuery | app/catalog/page.tsx:165-173 | A cleared selection's query carries page, limit and sort order, plus a price bound only where the restored range is narrower than the slider's. Before the filters load it carries no bound; after `null` bounds have loaded no query can be built. |
| CatalogPage.NoActiveProductNoQuery | app/catalog/page.tsx:75-115 | With no active product the loaded bounds are `null`, and neither the loaded nor the cleared range lets any query be built. |
| CatalogPage.Catalog.LoadFilters | app/catalog/page.tsx:75-81 | The answer is kept and the price range is set to its bounds, `null` ones included. |
| CatalogPage.Catalog.LoadProducts | app/catalog/page.tsx:95-133 | The products are replaced by the answer only when the query could be built and the fetch succeeded; otherwise they stay as they were. |
| CatalogPage.Catalog.HandleBrandToggle | app/catalog/page.tsx:153-156 | The brand is toggled and the page goes back to 1. |
| CatalogPage.Catalog.HandleCategoryToggle | app/catalog/page.tsx:158-163 | The category is toggled and the page goes back to 1. |
| CatalogPage.Catalog.ClearFilters | app/catalog/page.tsx:165-173 | The selection is the cleared one, the price range the restored one, and the page is 1. |
| CatalogPage.Catalog.SetSortBy | app/catalog/page.tsx:364 | Only the sort order changes; the page is kept. |
| CatalogPage.Catalog.GoPrev | app/catalog/page.tsx:533 | The page is the back button's page. |
| CatalogPage.Catalog.GoNext | app/catalog/page.tsx:568 | The page is the next button's page. |
| CartPage.Join | app/cart/page.tsx:53-58 | At most one shown line per cart entry. |
| CartPage.JoinKeepsKnown | app/cart/page.tsx:53-58 | The shown lines are the entries whose product exists, in cart order, each with the product found for its id. |
| CartPage.LinesOfJoin | app/cart/page.tsx:94-97 | Fed the request the cart sends, the order route builds one line per shown line, in order. |
| CartPage.CartTotalMatchesOrder | app/cart/page.tsx:78-80 | Over the same catalogue, the total the cart shows is the total the order route computes for the cart's request, and the route keeps every shown line. |
| CartPage.CartView.LoadCart | app/cart/page.tsx:49-62 | The shown lines are the join of the stored cart with the products. |
| CartPage.CartView.UpdateQuantity | app/cart/page.tsx:64-71 | A quantity of 0 or less removes the entry, any other sets it; the shown lines reload. |
| CartPage.CartView.RemoveItem | app/cart/page.tsx:73-76 | The product's entries go and the shown lines reload. |
| CartPage.CartView.HandleOrderSubmit | app/cart/page.tsx:82-121 | Signed out, nothing is sent or changed. Signed in, the form and the shown ids and quantities are sent. Only an accepted order clears the cart and the form. |
| QuickView.Decrement | components/product-quick-view.tsx:169 | One less, never below 1. |
| QuickView.Increment | components/product-quick-view.tsx:178 | One more, never above the stock. |
| QuickView.StepperStaysInRange | components/product-quick-view.tsx:169-179 | With its buttons enabled the stepper keeps the quantity within 1 to the stock. |
| QuickView.EntryIndex | components/product-quick-view.tsx:28 | The index found holds an entry of the product; none exactly when no entry has it. |
| QuickView.AddEntryQuantities | components/product-quick-view.tsx:25-36 | Adding raises the product's stored quantity by the chosen quantity and leaves other products alone. |
| QuickView.AddEntryDistinct | components/product-quick-view.tsx:28-34 | One entry per product is kept. |
| QuickView.AddFavorite | components/product-quick-view.tsx:44-54 | The id is a favorite afterwards, and nothing else is added. |
| QuickView.AddFavoriteIdempotent | components/product-quick-view.tsx:46 | Adding a favorite twice is adding it once. |
| QuickView.AddFavoriteOnce | components/product-quick-view.tsx:46-47 | A new favorite is stored exactly once. |
| QuickView.Dialog.PressDecrement | components/product-quick-view.tsx:169-170 | The minus button steps down unless disabled, and keeps the quantity in range. |
| QuickView.Dialog.PressIncrement | components/product-quick-view.tsx:178-179 | The plus button steps up unless disabled, and keeps the quantity in range. |
| QuickView.Dialog.PressAddToCart | components/product-quick-view.tsx:25-36 | Out of stock nothing happens; otherwise the chosen quantity is added to the `cart` key. |
| QuickView.Dialog.PressAddToFavorites | components/product-quick-view.tsx:44-54 | The product is added to the `favorites` key once. |
| AdminOrdersPage.ActionMovesForward | app/admin/orders/page.tsx:91-120 | Every offered action moves one step along pending, paid, shipped, delivered; delivered and cancelled orders offer none. |
| AdminOrdersPage.PressesStayOnLine | app/admin/orders/page.tsx:91-120 | Repeated presses advance along the line, stop at delivered, and never reach cancelled. |
| AdminOrdersPage.Label | app/admin/orders/page.tsx:30-40 | Every status has a non-empty label. |
| AdminOrdersPage.LabelsDistinct | app/admin/orders/page.tsx:30-40 | Different statuses have different labels. |
| AdminOrdersPage.StatusPatchOnly | app/admin/orders/page.tsx:26 | The status patch changes the status and nothing else. |
| AdminOrdersPage.OrdersView.UpdateOrderStatus | app/admin/orders/page.tsx:25-28 | The first order with the id takes the new status, the rest are unchanged, and the list reloads. |
| AdminOrdersPage.OrdersView.PressAction | app/admin/orders/page.tsx:91-120 | Pressing an order's button moves it one step forward, or does nothing when none is offered. |
| Dashboard.Contribution | app/admin/dashboard/page.tsx:27-29 | A paid or delivered order adds its amount to the revenue, any other nothing. |
| Dashboard.RevenueByContribution | app/admin/dashboard/page.tsx:27-29 | The revenue is the sum of every order's contribution. |
| Dashboard.NoEarningNoRevenue | app/admin/dashboard/page.tsx:27-29 | With no paid or delivered order the revenue is 0. |
| Dashboard.RevenueAfterStatus | app/admin/dashboard/page.tsx:27-29 | Changing an order's status moves the revenue by the difference of contributions; paid to shipped takes the amount out. |
| Dashboard.PendingCount | app/admin/dashboard/page.tsx:31 | The pending count never exceeds the number of orders. |
| Dashboard.PendingAndEarningDisjoint | app/admin/dashboard/page.tsx:27-31 | Pending and earning orders together fit in the order count. |
| Dashboard.StatsMeaning | app/admin/dashboard/page.tsx:33-38 | The stats hold the list lengths, the revenue and a pending count that fits beside the earning orders. |
| Dashboard.RecentOrders | app/admin/dashboard/page.tsx:105-119 | The first five stored orders (or all), empty exactly when the "no orders" line shows. |
| Dashboard.PopularProducts | app/admin/dashboard/page.tsx:130-132 | The first five stored products (or all). |
| BrandsPage.ActiveCount | app/brands/page.tsx:26 | A brand's count never exceeds the number of products. |
| BrandsPage.BrandsWithCount | app/brands/page.tsx:22-28 | One entry per active brand, so the badge shows the number of active brands. |
| BrandsPage.ByCountConsistent | app/brands/page.tsx:28 | The count comparator has a consistent sign. |
| BrandsPage.SameEntries | app/brands/page.tsx:22-28 | Sorting keeps exactly the counted active brands. |
| BrandsPage.ListedExactly | app/brands/page.tsx:22-28 | A brand is listed exactly when it is active, with the number of its active products. |
| BrandsPage.CountsNonIncreasing | app/brands/page.tsx:28 | Counts never increase along the list. |
| BrandsPage.EqualCountsKeepOrder | app/brands/page.tsx:28 | With all counts equal the stored order is kept. |
| ModernCategories.Icon | components/modern-categories.tsx:10-21 | Every slug gets a non-empty icon. |
| ModernCategories.IconFallback | components/modern-categories.tsx:91 | A slug outside the table gets the note icon. |
| ModernCategories.CountCategories | components/modern-categories.tsx:32-37 | The loop maps each category id to the number of its active products. |
| ModernCategories.ShownCount | components/modern-categories.tsx:100 | A missing or zero count shows 0, any other count itself. |
| ModernCategories.Visible | components/modern-categories.tsx:39 | The shown categories are a subsequence of the list: only listed categories, in list order. |
| ModernCategories.TilesShowCounts | components/modern-categories.tsx:39-100 | Each tile shows its category's active product count. |
| ModernCategories.TileIffActive | components/modern-categories.tsx:39 | A category has a tile exactly when it is active. |
| FeaturedProducts.Featured | components/featured-products.tsx:16-17 | At most eight products are shown. |
| FeaturedProducts.FeaturedMeaning | components/featured-products.tsx:16-17 | The shown products are the first qualifying (featured and active) ones in stored order: eight of them, or all of them when fewer qualify. |
| NewPage.NewProductsMeaning | app/new/page.tsx:14-48 | Exactly the new active products, in stored order; the badge counts them. |
| NewPage.NothingNew | app/new/page.tsx:14 | With no new active product the list is empty. |
| AuthDb.RoleOr | app/api/auth/login/route.ts:71 | A stored non-empty role wins, otherwise the fallback. |
| AuthDb.ByEmailFinds | lib/db.ts:31-44 | A query that does not fail finds a row exactly when some stored row has the email. |
| AuthDb.ByIdFinds | lib/db.ts:31-44 | A query that does not fail finds a row exactly when some stored row has the id. |
| LoginRoute.Login | app/api/auth/login/route.ts:5-89 | The handler answers as the login outcome says, and appends its session, if any. |
| LoginRoute.Unroled | app/api/auth/login/route.ts:29-37 | A users row carries no role. |
| LoginRoute.CandidateSource | app/api/auth/login/route.ts:20-48 | An administrator found wins with role "admin"; otherwise a user with role "user"; none exactly when both queries are empty. |
| LoginRoute.FieldsCheckedFirst | app/api/auth/login/route.ts:13-15 | A missing or falsy email or password gets 400 whatever the tables hold. |
| LoginRoute.AdministratorsFirst | app/api/auth/login/route.ts:20-37 | Once an administrator is found the users table cannot change the outcome. |
| LoginRoute.SameRejection | app/api/auth/login/route.ts:45-68 | An unknown email and a wrong password get the same 401 and no session. |
| LoginRoute.SessionAfterVerify | app/api/auth/login/route.ts:62-84 | A session is made exactly after a successful verify, for the found row, with the role the answer reports. |
| LoginRoute.NonStringPasswordRejected | app/api/auth/login/route.ts:62-68 | A truthy password that is not a string never verifies: the answer is the 401 refusal with no session. |
| LoginRoute.EmailLookedUpAsText | app/api/auth/login/route.ts:20-35 | A truthy email that is not a string is looked up by the text it is bound as, and a found row has that email. |
| RegisterRoute.Register | app/api/auth/register/route.ts:5-76 | The handler answers as the outcome says and appends the inserted row and session, if any. |
| RegisterRoute.FieldsRequired | app/api/auth/register/route.ts:13-15 | A missing or falsy field gets 400 with no insert and no session. |
| RegisterRoute.DuplicateRefused | app/api/auth/register/route.ts:20-36 | An email stored in either table is refused with 400. |
| RegisterRoute.InsertAndSession | app/api/auth/register/route.ts:38-71 | A row is inserted exactly when the body is complete, the password is a string, the email is new and the insert succeeds. The row stores the hash, and a "user" session is made for it. |
| RegisterRoute.InsertFailureNoSession | app/api/auth/register/route.ts:52-54 | A failed insert gets 500 and no session. |
| RegisterRoute.FailedLookupMissesDuplicate | app/api/auth/register/route.ts:20-36 | Failed lookups read as "no rows", so the route attempts the insert. |
| RegisterRoute.NewRow | app/api/auth/register/route.ts:43-47 | The inserted row stores each field as the text it is bound as, the password's hash, the new id and no role. |
| RegisterRoute.NonStringPasswordFails | app/api/auth/register/route.ts:38-40 | A truthy password that is not a string makes `hashPassword` fail: once the email is new, the answer is 500 with no insert and no session. |
| MeRoute.AsUser | app/api/auth/me/route.ts:14-18 | A users row is reported with role "user". |
| MeRoute.MeResponse | app/api/auth/me/route.ts:5-47 | The answer always has status 200. |
| MeRoute.Me | app/api/auth/me/route.ts:5-47 | The handler answers as the response function says, and a profile always has the session's id. |
| MeRoute.NoSessionNoLookup | app/api/auth/me/route.ts:7-11 | Without a session or a database the answer is `{ user: null }`. |
| MeRoute.UsersWin | app/api/auth/me/route.ts:14-26 | A users row with the id wins over the administrators table, reported as "user". |
| MeRoute.ProfileIffFound | app/api/auth/me/route.ts:14-30 | A profile comes back exactly when a query finds the id; otherwise `{ user: null }`. |
| MeRoute.RoleNullAfterLogin | app/api/auth/me/route.ts:20-42 | An administrator with a NULL role logs in as "admin" but is reported here with role null. |
| MeRoute.AdminSessionShowsUser | app/api/auth/me/route.ts:14-26 | Counterexample: an administrator and a user sharing id 1; the administrator's session is answered with the user's profile. |
| MeRoute.ByOwner | app/api/auth/me/route.ts:14-26 | A failed query finds nothing. |
| MeRoute.MeIntended | app/api/auth/me/route.ts:5-47 | The corrected route also always answers 200. |
| MeRoute.FirstOwner | app/api/auth/me/route.ts:14-26 | With unique ids the owner lookup finds the session's row first. |
| MeRoute.NoOwner | app/api/auth/me/route.ts:14-26 | A table without the session's email has no owner row. |
| MeRoute.MeIntendedAfterLogin | app/api/auth/me/route.ts:14-26 | The corrected lookup answers a login's session with the profile of the account that logged in. |
| RegisterPage.Utf16Length | app/auth/register/page.tsx:52 | The length counts each character once, or twice outside the Basic Multilingual Plane. |
| RegisterPage.Utf16LengthBmp | app/auth/register/page.tsx:52 | Basic Multilingual Plane text has one unit per character. |
| RegisterPage.ThreeEmojiPass | app/auth/register/page.tsx:52-56 | Three emoji are six units, enough for the length check. |
| RegisterPage.Validate | app/auth/register/page.tsx:46-56 | A mismatch exactly when the passwords differ; too short exactly when they agree and are under 6 units; passed otherwise. |
| RegisterPage.MismatchFirst | app/auth/register/page.tsx:46-56 | A mismatch is reported even when the password is also too short. |
| RegisterPage.RegisterForm.HandleChange | app/auth/register/page.tsx:34-39 | The named field takes the value. |
| RegisterPage.RegisterForm.HandleSubmit | app/auth/register/page.tsx:41-67 | A failed check shows its message and sends nothing. Otherwise `register` is called once: success navigates home, failure shows the generic message. Loading ends off. |

## Left out

- JSON (de)serialisation, the `cartUpdated` window event, toasts, `console` output, rendering and the React effects that trigger loads are not modelled; times are a `now` parameter.
- The contents of the seed arrays are not written out: the seed catalogue is a parameter of `LocalStore.Store`'s constructor. The server-side store is not a separate model: a route model is given a `Store`, which on the server holds the seed catalogue and no orders. A write there failing because the server runtime has no `localStorage` is not modelled.
- Network calls between pages and routes are parameters (`accepted`, `success`, `signedIn`). The page models do not call the route models.
- JWT signing, cookies and bcrypt from `lib/auth.ts` are not modelled. A session is its claims. `hash` and `verify` are parameters, with the bcrypt salt folded into `hash`. Only bcryptjs's refusal of a password that is not a string is modelled. `createSession` throwing is not modelled.
- Request body fields that are JSON objects or arrays are not modelled; a field holds `null`, `undefined`, a boolean, a whole number or a string.
- The order of rows a SQL query returns is taken as stored order; the UNIQUE and SERIAL constraints of the account tables are stated as preconditions where needed.
- The register page's redirect of an already signed-in user and the login page are not modelled.
- The legacy `cart` and `favorites` keys the quick view writes are modelled on their own; they are not read by the store's cart.
- The product form's non-text fields, its initial values from an edited product, image upload and submission are not modelled. Only `formData` text fields, images, the slug and the image payload are modelled.
- AdminProductsApi.CreateProduct: requires a numeric price and stock quantity, because `NaN` is not a value of the model's integer fields.
- OrdersApi.PostOrder: does not model the route on the server, where `localStorage.setItem` throws after the order is built. There the route answers 500 "Failed to create order" and keeps no order, since `getLocalOrders` returns a new empty list on every call.
- AdminProductsApi.CreateProduct: does not model the route on the server, where `localStorage.setItem` throws after the product has been pushed into the seed array. There the route answers 500 "Failed to create product", while the product stays in the server's seed array and later listings serve it.
- AdminProductsApi.IdField: a `brand_id` or `category_id` that is not a number (the string "3", `true`) is stored as absent, where the source stores it as sent. Every reader of these fields in the modelled code (the filters, the products route, the brands page, the home-page categories) compares them with `===` against a number, so such an id matches nothing either way; only the echoed `product` differs.
- AdminProductsApi.ProductBody: `name`, `slug`, `description`, `short_description` and `sku` are strings. A missing or non-string value, which the source stores as sent, is not represented.
- JsText.ParseInt: JavaScript numbers are doubles, but the model's numbers are unbounded integers. Text of more than 308 digits parses to `Infinity` in the source. For `/api/admin/orders?limit=1` followed by 309 zeros, with one stored order, the source computes an offset of `NaN` and answers no orders and `totalPages` 0. The model answers the order and one page. Above 2^53 the source also rounds, so an echoed `page` can differ from the one sent.
- LocalStore.NextId: above 2^53, `Math.max(...ids, 0) + 1` rounds back to the largest id and stops giving a fresh id. The model's ids are unbounded, so its id is always fresh.
- AdminProductsApi.ToNumber: handles only whole decimal text; fractions, exponents and hexadecimal text are not modelled.
- JsText.ParseInt: `-0` and text such as `-00` are read as 0, not as JavaScript's negative zero. With `limit=-0` and a non-empty list, ProductsApi.ReadQuery, ProductsApi.ListProducts, AdminProductsApi.ListProducts and Pagination.Paginate then give `totalPages` as `Infinity` and `hasNext` true, where the source divides by -0 and gets `-Infinity` and `hasNext` false. An empty list gives `NaN` either way. The page window and the page, category, brand and price values are unaffected, since `-0 === 0`.
- JsText.CompareStrings: `localeCompare` is modelled as code-point order, not the locale's collation.
- JsText.ToLower: lower-cases ASCII, Latin-1 and the Cyrillic capitals U+0400 to U+042F only; other scripts are left unchanged.
- ImageUtils.SafeImageUrlIdempotent: holds only for a trimmed or blank fallback. An untrimmed fallback comes back as given and is trimmed on a second pass (ImageUtils.SafeImageUrlUntrimmedFallback).
- FiltersApi: with no active product the source computes `Infinity` and `-Infinity` as bounds, which `NextResponse.json` sends as `null`; the model answers no price range.
- ProductsApi and Sorting: the sort is modelled on values as a stable insertion sort, so in-place mutation of the shared array is not captured.
- CatalogPage: the price slider's drag events, the search box and the view-mode switch are not modelled beyond the state they set; of loadProducts' answer only the product list is kept (not the pagination block or the loading flags), and a failed `/api/filters` fetch, which changes no state, is not modelled.

## Findings

| source | as written | input that shows it | evidently intended | confidence | as-written member | corrected member |
|---|---|---|---|---|---|---|
| app/api/auth/me/route.ts:14-26 | The account is looked up by id alone, in `users` before `administrators`. The two tables take their ids from separate SERIAL sequences. | An administrator (id 1, admin@store) logs in while a user has id 1 (buyer@store). The /me answer is the user's profile with role "user". | Look up the account by the session's id and email, so the profile is the account that logged in. | not executed | MeRoute.AdminSessionShowsUser | MeRoute.MeIntendedAfterLogin |
