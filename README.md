# Zora storefront: a verified model of its client-side state and queries

This project models, in Dafny, the client-side logic of the Zora storefront.
Zora is a React shop for Indonesian fashion.

- **Cart store** (`useCart`): the cart's lines, keyed by product id and size.
  Add merges or appends, remove filters, update clamps the quantity to at least 1,
  and the two totals are folds.
- **Catalogue query** (`ProductList`): the category, colour and price filters
  taken from the URL, then the optional stable sort. Also the option lists
  offered to the filter panel.
- **Search hook** (`useSearch`): a case-insensitive filter over name,
  category and detail lines.
- **Filter panel** (`ProductFilters`): the filter record read from the URL
  and written back to it.
- **Search panel** (`SearchModal`): suggestions kept as an insertion-ordered
  set of at most five, and a most-recent-first history of at most five.
- **Product grid** (`ProductGrid`): twelve products first, then eight more
  each time the sentinel below the grid is in view.
- **Cart row** (`CartItem`) and **product page** (`ProductDetail`): the
  quantity steppers, the size guard and the product fallback.
- **Collections** and **new arrivals**: capped, filtered groupings.

Each source file is one module: `cart_store.dfy`, `product_list.dfy`,
`product_search.dfy`, `product_filters.dfy`, `search_modal.dfy`,
`product_grid.dfy`, `cart_item.dfy`, `product_detail.dfy`, `collections.dfy`
and `new_arrivals.dfy`. Shared vocabulary lives in three more:

- `seqs.dfy`: `filter`, `slice(0, n)`, `[...new Set(...)]`, subsequences.
- `text.dfy`: ASCII `toLowerCase`, `includes`, `trim` and decimal digits.
- `catalog.dfy`: the product record, the option lists and URL parameters.

Components whose handlers change state are classes whose methods change
their fields. Examples are the cart provider (`CartStore.Cart`), the search
panel, the filter panel, the grid, the cart row and the product page. The
pure transformations are functions, and lemmas state what they guarantee.
Where the source updates a value step by step, the model does too, in a
method proved equal to a specification function:

- the three `forEach` passes that fill the suggestion set (a loop);
- the staged `result = result.filter(...)` reassignments;
- the conditional property assignments that build the URL parameters.

The source's other iterating calls (`filter`, `map`, `reduce`, `sort`,
`find`, `some`, `flatMap`) build a new value from an old one, and the model
writes each as a recursive function.

Four behaviours of the code differ from what its interface suggests; the
model follows the code:

- The catalogue query ignores the `search` parameter. The search hook
  navigates to `/products?search=…` (src/hooks/useSearch.js:34), but the
  catalogue page reads only `category`, `color`, `minPrice`, `maxPrice` and
  `sort` (src/pages/ProductList.jsx:24-28).
- The search hook does not match colours (src/hooks/useSearch.js:19-26),
  although the search panel offers colours as suggestions
  (src/components/search/SearchModal.jsx:60-65).
- With no `sort` parameter the catalogue query does not sort at all
  (src/pages/ProductList.jsx:46). The filter panel's default is `featured`,
  and choosing it removes the parameter
  (src/components/products/ProductFilters.jsx:13, 22), so that choice also
  leaves the list in catalogue order (`ProductFilters.QueryFromFilters`).
  Only an explicit unknown value reaches the featured-first comparator.
- The cart provider offers no `clearCart`, although the checkout page calls
  it (src/pages/Checkout.jsx:7, 33).

Two behaviours of the code are kept as written. The product page keeps its
chosen size and quantity when a related-product link changes the route id,
so a size offered by the previous product can be added with the new one
(`ProductDetail.StaleSizeIsAdded`). The mini cart renders its rows without
the store's callbacks (see Findings). `addToCart` sets the store's
`isCartOpen` flag, but no component reads that flag: the header opens the
mini cart from a state of its own (src/components/layout/Header.jsx:9, 77,
110), so adding to the cart does not open it. The header is not part of
this model.

## Model

| member | source | states |
|---|---|---|
| CartStore.AtLeastOne | src/hooks/useCart.jsx:54 | `Math.max(1, n)` is at least 1 and at least `n`, and is one of the two |
| CartStore.Added | src/hooks/useCart.jsx:22-38 | after `addToCart`'s updater the item's key is in the cart; the cart keeps its length when the key was there and grows by one line otherwise |
| CartStore.Removed | src/hooks/useCart.jsx:42-48 | after `removeFromCart`'s updater no line has the key, and the remaining lines are an in-order subsequence of the old ones |
| CartStore.Updated | src/hooks/useCart.jsx:50-58 | `updateQuantity`'s updater keeps the cart's length, and every line under the key carries `max(1, n)` |
| CartStore.Total | src/hooks/useCart.jsx:60-63 | the `reduce` of price × quantity is non-negative when no line has a negative price or quantity |
| CartStore.Count | src/hooks/useCart.jsx:65 | the `reduce` of quantities is non-negative when no quantity is negative |
| CartStore.AddSpec | src/hooks/useCart.jsx:22-38 | with a line of the same (id, size) the cart keeps its length, that line's quantity grows by the added quantity and every other line is unchanged; otherwise the item is appended at the end; either way the key is present afterwards |
| CartStore.AddKeepsKeysUnique | src/hooks/useCart.jsx:22-38 | if no two lines share (id, size) before an add, none do after it |
| CartStore.AddCount | src/hooks/useCart.jsx:22-38 | an add raises `cartCount` by the added quantity and the quantity under the item's key by the same amount. Exactly one line has that key afterwards, and every other key's quantity is unchanged |
| CartStore.AddTotal | src/hooks/useCart.jsx:22-38 | an add raises `cartTotal` by price × quantity when the existing line under the key has the item's price |
| CartStore.RemoveSpec | src/hooks/useCart.jsx:42-48 | remove keeps exactly the lines without the key, in their original order. Nothing matching means no change. `cartCount` drops by the quantity under the key, and keys stay unique |
| CartStore.UpdateSpec | src/hooks/useCart.jsx:50-58 | update sets every matching line's quantity to `max(1, n)`. It keeps the length and every other line, and is a no-op without a match. It keeps keys unique and quantities positive |
| CartStore.UpdateQuantityOf | src/hooks/useCart.jsx:50-58 | after updating a present key, the quantity under it is `max(1, n)` |
| CartStore.PositiveQuantitiesKept | src/hooks/useCart.jsx:22-58 | adding a positive quantity, removing and updating all keep every line's quantity at 1 or more |
| CartStore.AggregateBounds | src/hooks/useCart.jsx:60-65 | with positive quantities `cartCount` is at least the number of lines; with non-negative prices `cartTotal` is non-negative |
| CartStore.Cart.constructor | src/hooks/useCart.jsx:6-7 | the provider starts with an empty cart and the store's `isCartOpen` flag false |
| CartStore.Cart.CartTotal | src/hooks/useCart.jsx:60-63 | `cartTotal` of the current cart is non-negative when prices are non-negative and quantities positive |
| CartStore.Cart.CartCount | src/hooks/useCart.jsx:65 | `cartCount` of the current cart is at least the number of lines when quantities are positive |
| CartStore.Cart.AddToCart | src/hooks/useCart.jsx:22-40 | the cart becomes the merged-or-appended list, the store's `isCartOpen` flag is set (no component reads it; the header keeps its own, src/components/layout/Header.jsx:9), `cartCount` grows by the quantity, keys stay unique |
| CartStore.Cart.RemoveFromCart | src/hooks/useCart.jsx:42-48 | the cart becomes the filtered list; the store's `isCartOpen` flag is unchanged; keys stay unique |
| CartStore.Cart.UpdateQuantity | src/hooks/useCart.jsx:50-58 | the cart becomes the re-quantified list; the store's `isCartOpen` flag is unchanged; keys stay unique |
| CartStore.Cart.SetIsCartOpen | src/hooks/useCart.jsx:7 | only the store's `isCartOpen` flag changes |
| Catalog.Categories | src/pages/ProductList.jsx:14 | the category list has no duplicates and holds exactly the categories of the products |
| Catalog.Colors | src/pages/ProductList.jsx:15 | the colour list has no duplicates and holds exactly the colours of the products |
| Catalog.PriceRangeOf | src/pages/ProductList.jsx:16-19 | for a non-empty catalogue, `min` ≤ every price ≤ `max` and both are attained; an empty catalogue has no range |
| ProductList.ListQueryOf | src/pages/ProductList.jsx:24-44 | a present category, colour or sort parameter reaches the query unchanged, and a present `minPrice` or `maxPrice` is parsed as a price bound; an absent category, colour or price bound lets every product through, and an absent sort means no sort |
| ProductList.SortOrderOf | src/pages/ProductList.jsx:46-60 | `""` means no sort, each of `newest`, `price-low` and `price-high` picks its comparator, and every other value falls to the featured `default` |
| ProductList.SortFacts | src/pages/ProductList.jsx:46-60 | the sort neither adds nor drops a product (same multiset, same length) and leaves the list in key order |
| ProductList.SortIsStable | src/pages/ProductList.jsx:46-60 | products with equal sort keys keep their original relative order |
| ProductList.FeaturedFirstPartitions | src/pages/ProductList.jsx:57-58 | the featured comparator yields the featured products in catalogue order followed by the others in catalogue order |
| ProductList.FilteredFacts | src/pages/ProductList.jsx:30-44 | a product survives the filters if and only if it meets every present filter; the survivors are an in-order subsequence |
| ProductList.NotANumberKeepsNothing | src/pages/ProductList.jsx:38-44 | a price bound that `Number` reads as `NaN` filters out every product |
| ProductList.SortedResult | src/pages/ProductList.jsx:46-60 | after the sort: `price-low` prices never decrease, `price-high` prices never increase, `newest` creation times never increase, featured-first is the stable partition |
| ProductList.ApplyFilters | src/pages/ProductList.jsx:23-44 | the four staged filters equal one filter by the conjunction of the present conditions |
| ProductList.ApplyQuery | src/pages/ProductList.jsx:22-62 | the result holds exactly the products meeting every present filter. With no `sort` it is the filtered list in catalogue order. Otherwise it is the stable sort of that list, ordered as the chosen comparator demands. An unknown value sorts featured first |
| ProductSearch.SearchTermOf | src/hooks/useSearch.js:14-16 | the term is the `search` parameter, or `""` when it is absent |
| ProductSearch.MatchesTerm | src/hooks/useSearch.js:19-26 | the filter's predicate accepts every product for an empty term |
| ProductSearch.SearchResults | src/hooks/useSearch.js:18-30 | an empty term returns all products unchanged. Otherwise the result is an in-order subsequence holding exactly the products whose lower-case name, category or some detail line contains the lower-case term |
| ProductSearch.ColorsAreNotSearched | src/hooks/useSearch.js:19-26 | two products that differ only in their colours are found or missed together |
| ProductSearch.SearchParams | src/hooks/useSearch.js:33-35 | the URL that `handleSearch` navigates to reads back as the same term |
| SearchModal.OfferedMembers | src/components/search/SearchModal.jsx:43-65 | the three passes offer exactly the product names, categories and colours whose lower-case form contains the lower-case input |
| SearchModal.Suggestions | src/components/search/SearchModal.jsx:37-67 | empty input gives no suggestions. Otherwise there are at most five, without duplicates, each a matching name, category or colour. With fewer than five, every match is present |
| SearchModal.NamesComeFirst | src/components/search/SearchModal.jsx:46-67 | insertion order: the first five distinct matching names, in catalogue order, lead the suggestions, ahead of categories and colours |
| SearchModal.CategoriesBeforeColours | src/components/search/SearchModal.jsx:46-67 | insertion order: the first five distinct matching names and then categories lead the suggestions, so colours only fill the places left after them |
| SearchModal.AddMatching | src/components/search/SearchModal.jsx:47-65 | one `forEach` pass adds each matching candidate to the set unless it is already there |
| SearchModal.GenerateSuggestions | src/components/search/SearchModal.jsx:37-67 | the three loops followed by `slice(0, 5)` compute exactly `Suggestions` |
| SearchModal.UpdatedHistory | src/components/search/SearchModal.jsx:90 | the history holds one to five entries with the searched term first |
| SearchModal.HistoryHasTermOnce | src/components/search/SearchModal.jsx:90 | the term occurs only at the front |
| SearchModal.HistoryKeepsOrder | src/components/search/SearchModal.jsx:90 | the entries after the front keep their earlier relative order |
| SearchModal.HistoryKeepsAllWhileRoom | src/components/search/SearchModal.jsx:90 | while the list is not full, no earlier entry is lost |
| SearchModal.HistoryStaysDistinct | src/components/search/SearchModal.jsx:90 | a history without repeats has none after an update |
| SearchModal.HistoryUpdateIdempotent | src/components/search/SearchModal.jsx:90 | searching the same term twice in a row changes nothing the second time |
| SearchModal.NewTermEvictsOldest | src/components/search/SearchModal.jsx:90 | a new term on a full list drops the oldest entry |
| SearchModal.RepeatedSearchMovesToFront | src/components/search/SearchModal.jsx:90 | searching batik, kebaya, batik leaves batik then kebaya |
| SearchModal.SearchPanel.constructor | src/components/search/SearchModal.jsx:8-10 | empty input, history and suggestions |
| SearchModal.SearchPanel.HandleInputChange | src/components/search/SearchModal.jsx:77-81 | the input is stored and the suggestions become those for it; the history is unchanged |
| SearchModal.SearchPanel.HandleSubmit | src/components/search/SearchModal.jsx:84-96 | a blank input (after trimming) changes nothing and searches nothing; otherwise the trimmed input is searched and recorded in the history |
| SearchModal.SearchPanel.HandleSelectSuggestion | src/components/search/SearchModal.jsx:99-109 | the suggestion becomes the input, is searched, and is recorded in the history |
| SearchModal.SearchPanel.HandleClearSearch | src/components/search/SearchModal.jsx:112-115 | only the input is cleared |
| ProductFilters.InitialFilters | src/components/products/ProductFilters.jsx:8-14 | each field is its parameter, or `''` when absent or empty; the sort falls back to `featured` |
| ProductFilters.ParamsOf | src/components/products/ProductFilters.jsx:16-24 | a field's parameter is present exactly when the field is non-empty (for the sort: differs from `featured`). The parameter holds the field's value, and no other parameter survives |
| ProductFilters.BuildParams | src/components/products/ProductFilters.jsx:17-22 | the conditional assignments build exactly `ParamsOf` |
| ProductFilters.WithField | src/components/products/ProductFilters.jsx:27-32 | `handleFilterChange` sets the named field and leaves every other field as it was |
| ProductFilters.ParamsRoundTrip | src/components/products/ProductFilters.jsx:8-24 | writing the filters to the URL and reading them back gives the same record when the sort is non-empty |
| ProductFilters.EmptySortIsNotKept | src/components/products/ProductFilters.jsx:13-22 | an empty sort is written as `sort=` and read back as `featured` |
| ProductFilters.NormalisedParamsAreStable | src/components/products/ProductFilters.jsx:8-24 | after one read and write, a second read and write leaves the URL as it is |
| ProductFilters.DefaultsWriteNoParams | src/components/products/ProductFilters.jsx:34-42 | the defaults that `clearFilters` installs write no parameters |
| ProductFilters.QueryFromFilters | src/components/products/ProductFilters.jsx:16-24 | the catalogue query reads back the panel's category, colour and bounds. Choosing `featured` means no sort runs, and any other sort value arrives unchanged |
| ProductFilters.FilterPanel.constructor | src/components/products/ProductFilters.jsx:8-25 | mounting reads the filters from the URL and writes them back |
| ProductFilters.FilterPanel.HandleFilterChange | src/components/products/ProductFilters.jsx:27-32 | one field changes and the URL is rewritten from the new record |
| ProductFilters.FilterPanel.ClearFilters | src/components/products/ProductFilters.jsx:34-42 | the filters become the defaults and the URL loses every filter parameter |
| ProductFilters.PriceFilter.constructor | src/components/products/ProductFilters.jsx:222-224 | the local inputs start from the current bounds |
| ProductFilters.PriceFilter.SetLocalMin | src/components/products/ProductFilters.jsx:267 | typing into the minimum input changes only it |
| ProductFilters.PriceFilter.SetLocalMax | src/components/products/ProductFilters.jsx:288 | typing into the maximum input changes only it |
| ProductFilters.PriceFilter.HandleApply | src/components/products/ProductFilters.jsx:226-229 | both bounds are set from the local inputs; the other fields are unchanged |
| ProductGrid.NextIndex | src/components/products/ProductGrid.jsx:18-22 | a load step runs only while products remain; it adds eight when eight remain and otherwise stops at the end of the list |
| ProductGrid.IndexAfterSteps | src/components/products/ProductGrid.jsx:12-23 | after `k` steps the load index is `min(12 + 8k, len)` when more than twelve products exist |
| ProductGrid.EverythingRevealed | src/components/products/ProductGrid.jsx:12-33 | once `12 + 8k ≥ len`, all products are shown and the load index has reached the end, so the sentinel is gone |
| ProductGrid.CommitAsWritten | src/components/products/ProductGrid.jsx:12-24 | the commit in which a new list arrives, as written; when no load step fires in it, it keeps the reveal invariant |
| ProductGrid.StaleIndexSkipsProducts | src/components/products/ProductGrid.jsx:12-24 | with 25 new products, a previous index of 20 and the sentinel in view, 17 products are shown, the invariant is broken, and the sentinel disappears |
| ProductGrid.CommitAsWrittenConsistency | src/components/products/ProductGrid.jsx:12-24 | the commit as written keeps the reveal invariant exactly when no load step fires in it or the stale index is 12 |
| ProductGrid.CommitIntended | src/components/products/ProductGrid.jsx:12-24 | the reset followed by a load step from index 12 keeps `visibleProducts == products[0..min(loadIndex, len)]` |
| ProductGrid.Grid.constructor | src/components/products/ProductGrid.jsx:12-15 | the first `min(12, len)` products are shown and the load index is 12 |
| ProductGrid.Grid.ShowsSentinel | src/components/products/ProductGrid.jsx:33 | in a consistent grid the sentinel is rendered exactly when fewer products are shown than the list holds |
| ProductGrid.Grid.LoadMore | src/components/products/ProductGrid.jsx:17-24 | when the sentinel is visible and products remain, the index becomes `min(index + 8, len)`. The shown list only grows, by at most eight, and stays the prefix up to the index |
| ProductGrid.Grid.ReceiveProducts | src/components/products/ProductGrid.jsx:12-24 | a new list resets the grid to its first twelve, then loads from there |
| CartItem.LinePrice | src/components/cart/CartItem.jsx:34 | the row's price is `price × quantity`, that line's share of `cartTotal` |
| CartItem.MiniCartChangeIsLost | src/components/cart/MiniCart.jsx:67 | in the mini cart, where the row has no callbacks, a change from 1 to 3 leaves quantity 1 in the store, and remove leaves the line in place |
| CartItem.WiredChangeReachesStore | src/pages/Cart.jsx:28-33 | with the store's updaters as callbacks, the store's quantity under the row's key becomes the row's `max(1, n)`, and remove takes the key out |
| CartItem.CartItemView.constructor | src/components/cart/CartItem.jsx:6-7 | the local quantity starts at the line's quantity; the row keeps the callbacks its parent passed |
| CartItem.CartItemView.HandleQuantityChange | src/components/cart/CartItem.jsx:9-13 | the local quantity becomes `max(1, n)`. With the store's callbacks the same value reaches the store under the row's id and size, so every line under that key shows it; without them the handler throws and the store is unchanged. The store's `isCartOpen` flag never changes |
| CartItem.CartItemView.Decrement | src/components/cart/CartItem.jsx:41 | decrementing from 1 stays at 1; the store follows as for any quantity change, and the store's `isCartOpen` flag is unchanged |
| CartItem.CartItemView.Increment | src/components/cart/CartItem.jsx:48 | incrementing adds 1; the store follows as for any quantity change, and the store's `isCartOpen` flag is unchanged |
| CartItem.CartItemView.Remove | src/components/cart/CartItem.jsx:57 | with the store's callbacks no line under the row's id and size remains; without them the handler throws and the store is unchanged. The store's `isCartOpen` flag never changes |
| ProductDetail.FindById | src/pages/ProductDetail.jsx:11 | the first product with that id, or none when no product has it |
| ProductDetail.ResolveProduct | src/pages/ProductDetail.jsx:11-18 | the product with the id, else the first product; nothing only for an empty catalogue |
| ProductDetail.DetailPage.constructor | src/pages/ProductDetail.jsx:13-14 | quantity 1 and no size |
| ProductDetail.DetailPage.SelectSize | src/pages/ProductDetail.jsx:127-130 | a size button selects one of the shown product's sizes |
| ProductDetail.DetailPage.ShowProduct | src/pages/ProductDetail.jsx:10-15 | a change of route id shows the new product and keeps the chosen size and quantity |
| ProductDetail.DetailPage.Decrement | src/pages/ProductDetail.jsx:148 | `max(1, q - 1)`: the quantity never drops below 1 |
| ProductDetail.DetailPage.Increment | src/pages/ProductDetail.jsx:157 | `q + 1` |
| ProductDetail.DetailPage.HandleAddToCart | src/pages/ProductDetail.jsx:25-35 | without a size it alerts and the cart is untouched. Otherwise the shown product is added with the chosen size and quantity: the store's `isCartOpen` flag is set (read by no component) and `cartCount` grows by the quantity. The added size is one the product offers only when the chosen size is |
| ProductDetail.StaleSizeIsAdded | src/pages/ProductDetail.jsx:10-35 | size `M` chosen on one product, then a link to a product without `M`: add to cart adds that product in size `M` |
| Collections.Capped | src/pages/Collections.jsx:14-45 | the first four products that pass the test, in catalogue order (a prefix of the filtered list), and all of them when fewer than four pass |
| Collections.CollectionsOf | src/pages/Collections.jsx:9-47 | four collections in page order; each is exactly the first four (or fewer) products, in catalogue order, that pass the batik, traditional-wear, office and accessories tests |
| Collections.GroupingsOverlap | src/pages/Collections.jsx:14-37 | the tests overlap: every dress passes both the batik and the traditional-wear test, and an accessory passes the office test only when its name says office |
| NewArrivals.NewProducts | src/components/home/NewArrivals.jsx:6 | exactly the products marked new, in catalogue order |
| NewArrivals.ShownProducts | src/components/home/NewArrivals.jsx:54 | the first `min(4, n)` new products |
| NewArrivals.ShowsPlaceholder | src/components/home/NewArrivals.jsx:48-51 | the placeholder shows exactly when no product is new |

## Findings

| source | as written | input that shows it | evidently intended | confidence | as-written member | corrected member |
|---|---|---|---|---|---|---|
| src/components/products/ProductGrid.jsx:12-24 | When `products` changes, both effects run in the same commit. The load effect still sees the previous render's `loadIndex`, so it appends `products.slice(oldIndex, …)` to the fresh first twelve. | 25 new products, previous `loadIndex` 20, sentinel in view: 12 + 5 products are shown, `loadIndex` becomes 25 and the sentinel is removed, so products 13-20 cannot be reached | a new list shows its first twelve and continues loading from index 12, keeping `visibleProducts == products[0..min(loadIndex, len)]` | medium, not executed | ProductGrid.CommitAsWritten, ProductGrid.StaleIndexSkipsProducts | ProductGrid.CommitIntended, ProductGrid.Grid.ReceiveProducts |
| src/components/cart/MiniCart.jsx:67 | The mini cart renders each `CartItem` with `item` only. Its `-`, `+` and remove buttons call `onUpdateQuantity` or `onRemove`, which are undefined, so each click throws a `TypeError` after the row's local quantity has changed. | one line of quantity 1 in the mini cart, click `+` twice: the row shows 3 while the store, the badge and the subtotal keep 1; remove leaves the line in the cart | the mini cart passes `updateQuantity` and `removeFromCart` as the cart page does (src/pages/Cart.jsx:28-33) | high, not executed | CartItem.MiniCartChangeIsLost, CartItem.CartItemView.HandleQuantityChange | CartItem.WiredChangeReachesStore |

## Left out

- Local storage and JSON: loading and saving the cart and the search
  history are I/O. The cart's saved copy is a ghost field that every cart
  operation keeps equal to the cart. The search history starts empty rather
  than being restored.
- Timers: the 300 ms debounce of the suggestions is left out. The panel
  computes the suggestions for each input at once, which is the state the
  debounced call settles on. Timers in components outside the modelled
  core are not part of this model.
- `Catalog.Params`: a key holds one value. `URLSearchParams.get` returns
  the first value of a repeated key (`?color=Red&color=Blue`), and the
  model has no repeated keys.
- `clearCart`: the checkout page calls it but the provider never defines
  it, so it is not modelled.
- `ProductList.ParsePrice`: does not model all of JavaScript's `Number`. Only
  strings of decimal digits are read as numbers, and anything else becomes
  `NaN` (which filters out everything). Signs, decimals, exponents and
  surrounding spaces are not read as JavaScript would read them.
- Dates: `createdAt` is an already-parsed integer timestamp.
- Text: `Text.Lower` lower-cases ASCII letters only, and `Text.Trim` removes
  ASCII whitespace only. Locale rules and Unicode case folding are library
  behaviour. `toLocaleString` display and `encodeURIComponent` in
  `handleSearch` are left out as well.
- In-place sort: `result.sort` is modelled by value, as a stable insertion
  sort by the comparator's key. The effect's array is a fresh copy, so no
  aliasing is lost.
- Number width: prices, quantities and totals are unbounded integers.
  JavaScript numbers hold them exactly up to 2^53.
- `IntersectionObserver`: whether the sentinel is in view is an input to
  `ProductGrid.Grid.LoadMore` and `ProductGrid.Grid.ReceiveProducts`. The
  hook that reports it is not part of this model.
- `ProductGrid.Grid.constructor`: the sentinel is taken to be out of view in
  the mounting commit. Were it in view, the load effect would also append
  `products.slice(0, 8)`, read with the initial `loadIndex` of 0.
- `ProductGrid.Grid.ReceiveProducts`: models the intended commit (see
  Findings), not the commit as written. `ProductGrid.CommitAsWritten` models
  the latter.
- `getProductById` lives in the product data module, which is not part of
  this model. It is taken to be `products.find(p => p.id === id)`, the lookup
  the page's own commented-out code performs.
- `CartItem.CartItemView`: which callbacks the parent passes is the
  `wiring` argument of the constructor. With the store's callbacks, the cart
  page's wiring, the store is updated. With none, the mini cart's, the
  handler ends in a `TypeError`. Any other parent is not modelled.
- `SearchModal.SearchPanel.HandleSubmit`: the `onSearch` and `onClose`
  callbacks are outputs. The method returns the term handed to `onSearch`.
  Closing the panel and focusing the input are presentation.
- Display data (images, ratings, review counts, original price), the
  wishlist toggle, the image picker, the quick-view dialog, navigation,
  page metadata and all animation markup are left out.
