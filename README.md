# Storefront listing and cart, modelled in Dafny

A model of the two pieces of logic in a small storefront web client:

- the **product listing page** (`src/pages/ProductListing.tsx`): the view
  pipeline that derives the visible products from the catalog (category
  filter, then a sort on price or rating, then a 1-based window of six
  products), the category dropdown's options, the Prev/Next rule, and the
  page's state (its copy of the cart, filter, sort option, current page) with
  the add-to-cart action that writes the browser's `"cart"` key;
- the **cart page** (`src/pages/CartPage.tsx`): loading the stored cart with
  missing quantities defaulted to 1, quantity edits guarded against values
  below 1, removal by product id, clearing (which deletes the key), and the
  displayed total.

The browser's storage is one shared object, `Storage.Store`, whose `slot` is
the parsed value of the `"cart"` key (`None` when the key is absent). Both
pages hold a reference to it, so what the listing writes is what the cart
page loads.

Modules: `Wrappers` (Option), `JsArray` (`Array.prototype.filter` and
`slice`, and the subsequence relation), `Catalog` (the product record),
`Storage` (stored entries and the key), `ProductListing`, `CartPage`.

Modelling choices:

- Prices are integer cents and `rating.rate` an integer (tenths of a star),
  so sums and comparisons are exact. The comparators are differences of these
  numbers and have the same sign as the floating-point originals.
- `Array.prototype.sort` is modelled as a stable insertion sort
  (`ProductListing.Sort`). ECMA-262 requires the sort to be stable, and the
  comparators here are differences of a key, so they order consistently; a
  stable sort with such a comparator has only one possible result, so the
  model describes every conforming engine. The sort works on a copy: the
  filtered sequence is a value and stays as it was.
- The sort option is the dropdown's string. Any string other than
  `"price-asc"`, `"price-desc"` and `"rating"` makes the comparator return 0.
- `slice` is modelled with JavaScript's negative-index rule, although the
  page number never drops below 1 (`NavigationNeverShowsEmptyPage`).
- A stored entry is a product record with an optional quantity
  (`Storage.StoredLine`). The listing page keeps the parsed entries as they
  are, so quantities written by the cart page survive a later add.
- Loading uses `item.quantity ?? 1`: only a missing quantity becomes 1; a
  stored 0 stays 0. The total uses `item.quantity || 1`: a quantity of 0
  counts as 1 (`CartPage.EffectiveQuantity`).
- A click on a disabled Prev or Next button does nothing
  (`ProductListing.AfterPrev`, `ProductListing.AfterNext`).
- Selecting a category or a sort option does not reset the page.
  `NarrowingLeavesEmptyPage` shows the result: on page k ≥ 2, a selection
  that leaves at most (k - 1) × 6 products shows an empty page, although
  page 1 of the same list is not empty.

Three behaviours of the code worth knowing:

- Next is disabled when `currentPage * 6 >= sortedProducts.length`. That is,
  it is disabled when the next window would be empty, not when the current one is.
- `updateQuantity` and `removeItem` act on every line with the given id, not
  on one line. Duplicate lines exist, because adding a product twice
  appends two lines.
- "Quantity is always at least 1" holds only for a cart loaded from entries
  whose quantities are missing or at least 1. The load keeps a stored 0 or a
  negative quantity as it is. `ReplayKeepsInvariants` states the property
  with that hypothesis.

## Model

| member | source | states |
|---|---|---|
| `JsArray.Filter` | src/pages/ProductListing.tsx:57-59 | the result is a subsequence of the input, every kept element satisfies the callback, each element satisfying it keeps its multiplicity, and when every element satisfies it the input comes back unchanged |
| `JsArray.Slice` | src/pages/ProductListing.tsx:70 | for non-negative bounds the slice is `s[start..min(end, len)]`; it is empty when the start is at or past the end of the array or when `end <= start`; it is never longer than the input |
| `JsArray.SubsequenceElements` | src/pages/ProductListing.tsx:57-59 | every element of a subsequence occurs in the whole sequence |
| `ProductListing.FilterByCategory` | src/pages/ProductListing.tsx:57-59 | with an empty filter the output is the input; otherwise every kept product has the selected category, every product of that category is kept with its multiplicity, and the output is an order-preserving subsequence of the catalog |
| `ProductListing.Compare` | src/pages/ProductListing.tsx:61-66 | every comparator is the difference of a sort key: price, minus price, minus rating, or the constant 0 |
| `ProductListing.Insert` | src/pages/ProductListing.tsx:61-66 | inserting adds exactly the one product: the multiset grows by it |
| `ProductListing.Sort` | src/pages/ProductListing.tsx:61 | the sorted products are a permutation of the filtered products |
| `ProductListing.InsertKeepsSorted` | src/pages/ProductListing.tsx:61-66 | inserting into a key-ordered sequence keeps it key-ordered |
| `ProductListing.SortIsSorted` | src/pages/ProductListing.tsx:61-66 | the sort output is in non-decreasing key order |
| `ProductListing.InsertIsStable` | src/pages/ProductListing.tsx:61-66 | inserting puts the new product before every product with an equal key and leaves their order alone |
| `ProductListing.SortIsStable` | src/pages/ProductListing.tsx:61-66 | for every key value, the products with that key appear in the sorted output in the same order as in the input |
| `ProductListing.SortWithoutOptionKeepsOrder` | src/pages/ProductListing.tsx:65 | with no known sort option the sorted sequence equals the filtered sequence |
| `ProductListing.SortOrder` | src/pages/ProductListing.tsx:62-65 | `price-asc` gives non-decreasing prices, `price-desc` non-increasing prices, `rating` non-increasing rates, and any other option the filtered order |
| `ProductListing.PageWindow` | src/pages/ProductListing.tsx:68-70 | for page k ≥ 1 the window is `sorted[(k-1)*6 .. min(k*6, N)]`, it is empty when `(k-1)*6 ≥ N`, and it holds at most six products |
| `ProductListing.CurrentProductsComeFromCatalog` | src/pages/ProductListing.tsx:57-70 | every shown product is a catalog product, and it has the selected category when a filter is set |
| `ProductListing.NarrowingLeavesEmptyPage` | src/pages/ProductListing.tsx:57-70 | the page is not reset: on page k ≥ 2, a filter or sort that leaves between 1 and (k-1)·6 products shows an empty window while page 1 of the same list is not empty |
| `ProductListing.AddToSet` | src/pages/ProductListing.tsx:101 | inserting into an insertion-ordered set keeps it free of duplicates, holds exactly the old elements and the new ones, and keeps the old elements first, in their order |
| `ProductListing.CategoryOptions` | src/pages/ProductListing.tsx:101 | the options have no duplicates, and a string is an option iff some product of the unfiltered catalog has it as its category |
| `ProductListing.OptionsCoverFilteredCategories` | src/pages/ProductListing.tsx:101 | whatever the filter, the category of every filtered product is among the options |
| `ProductListing.MatchesCategory` | src/pages/ProductListing.tsx:58 | definition of the filter callback (an empty filter is falsy and keeps everything); its meaning is stated in `FilterByCategory` |
| `ProductListing.SortKey` | src/pages/ProductListing.tsx:62-65 | definition of the key each comparator subtracts; tied to the comparators by `Compare` |
| `ProductListing.SortedProducts` | src/pages/ProductListing.tsx:61 | definition of `sortedProducts` as sort after filter; its properties are in `FilterByCategory`, `Sort`, `SortOrder` and `SortIsStable` |
| `ProductListing.CurrentProducts` | src/pages/ProductListing.tsx:68-70 | definition of `currentProducts` as the page window of the sorted products; its properties are in `PageWindow`, `CurrentProductsComeFromCatalog` and `NarrowingLeavesEmptyPage` |
| `ProductListing.PrevDisabled` | src/pages/ProductListing.tsx:137 | definition of Prev's `disabled` (page 1); its consequences are in `NavigateStaysOnShownPage` and `ListingView.ClickPrev` |
| `ProductListing.NextDisabled` | src/pages/ProductListing.tsx:140 | definition of Next's `disabled` (`k*6 ≥ N`); its consequences are in `NavigateStaysOnShownPage` and `ListingView.ClickNext` |
| `ProductListing.AfterPrev` | src/pages/ProductListing.tsx:137 | definition of a Prev click, which does nothing while disabled; its properties are in `NavigateStaysOnShownPage` |
| `ProductListing.AfterNext` | src/pages/ProductListing.tsx:140 | definition of a Next click, which does nothing while disabled; its properties are in `NavigateStaysOnShownPage` |
| `ProductListing.Navigate` | src/pages/ProductListing.tsx:137-140 | definition of a run of clicks for a fixed list length; its properties are in `NavigateStaysOnShownPage` and `NavigationNeverShowsEmptyPage` |
| `ProductListing.NavigateStaysOnShownPage` | src/pages/ProductListing.tsx:137-140 | with Prev disabled at page 1 and Next disabled at `k*6 ≥ N`, a page that is 1 or starts inside the list stays so after any run of clicks |
| `ProductListing.NavigationNeverShowsEmptyPage` | src/pages/ProductListing.tsx:137-140 | from page 1, no run of clicks goes below page 1 or reaches an empty window, unless the list is empty |
| `ProductListing.ListingView.constructor` | src/pages/ProductListing.tsx:28-40 | the page starts on page 1 with no filter and no sort; its cart is the stored entries, or empty when the key is absent |
| `ProductListing.ListingView.AddToCart` | src/pages/ProductListing.tsx:45-48 | the cart becomes the old cart plus the product as one more line, its length grows by one, and the stored value equals the new cart |
| `ProductListing.ListingView.SelectCategory` | src/pages/ProductListing.tsx:97 | the filter becomes the selected value; nothing else changes, the page number included |
| `ProductListing.ListingView.SelectSort` | src/pages/ProductListing.tsx:110 | the sort option becomes the selected value; nothing else changes, the page number included |
| `ProductListing.ListingView.ClickPrev` | src/pages/ProductListing.tsx:137 | the page goes down by one unless it is 1, and so it never drops below 1 |
| `ProductListing.ListingView.ClickNext` | src/pages/ProductListing.tsx:140 | the page goes up by one unless `k*6 ≥ N`; from a shown page it never lands on an empty window of a non-empty list |
| `CartPage.Normalize` | src/pages/CartPage.tsx:20-23 | the loaded cart has the stored length and order, each line keeps the stored product fields, and its quantity is the stored one if present, else 1 |
| `CartPage.LoadCart` | src/pages/CartPage.tsx:16-25 | an absent key gives an empty cart; otherwise each stored entry gives, in order, a line with its fields and its quantity defaulted to 1 |
| `CartPage.Persist` | src/pages/CartPage.tsx:35 | every written entry carries the line's product fields and its quantity |
| `CartPage.LoadAfterPersist` | src/pages/CartPage.tsx:16-35 | loading what the cart page wrote gives back exactly the cart it showed |
| `CartPage.AddedProductLoadsWithQuantityOne` | src/pages/CartPage.tsx:20-23 | a product appended by the listing page loads as a new last line with quantity 1 |
| `CartPage.DuplicateAddGivesTwoLines` | src/pages/ProductListing.tsx:45-48 | adding the same product twice loads as two separate lines of quantity 1 |
| `CartPage.UpdatedQuantity` | src/pages/CartPage.tsx:31-33 | the length and order are kept; every line with the id gets the new quantity and keeps its product; every other line is unchanged |
| `CartPage.WithoutItem` | src/pages/CartPage.tsx:39 | no line with the id remains; every other line keeps its multiplicity, in its original order |
| `CartPage.WithoutItemIdempotent` | src/pages/CartPage.tsx:38-42 | removing an id twice gives the same cart as removing it once |
| `CartPage.TotalPrice` | src/pages/CartPage.tsx:50 | the total of an empty cart is 0 |
| `CartPage.ReduceIsSum` | src/pages/CartPage.tsx:50 | the left fold from an accumulator is the accumulator plus the sum of the line totals |
| `CartPage.TotalIsSumOfLineTotals` | src/pages/CartPage.tsx:50 | the total is the sum over lines of `price * (quantity == 0 ? 1 : quantity)` |
| `CartPage.TotalOfConcatenation` | src/pages/CartPage.tsx:50 | the total of two carts laid end to end is the sum of their totals |
| `CartPage.TotalOfPositiveQuantities` | src/pages/CartPage.tsx:50 | when every quantity is at least 1, the total is the sum of price × quantity |
| `CartPage.LoadKeepsQuantitiesPositive` | src/pages/CartPage.tsx:20-23 | if every stored quantity is missing or at least 1, every loaded quantity is at least 1 |
| `CartPage.StoredQuantity` | src/pages/CartPage.tsx:22 | definition of `item.quantity ?? 1`; its use is stated in `Normalize` and `LoadCart` |
| `CartPage.EffectiveQuantity` | src/pages/CartPage.tsx:50 | definition of the total's quantity fallback, under which a quantity of 0 counts as 1; its use is stated in `TotalIsSumOfLineTotals` |
| `CartPage.LineTotal` | src/pages/CartPage.tsx:50 | definition of one line's contribution to the total; its use is stated in `TotalIsSumOfLineTotals` |
| `CartPage.Reduce` | src/pages/CartPage.tsx:50 | definition of the `reduce` left fold; its value is stated in `ReduceIsSum` |
| `CartPage.Apply` | src/pages/CartPage.tsx:28-47 | definition of one cart action's effect on cart and storage; the methods are tied to it and its properties are in `ApplyKeepsInvariants` |
| `CartPage.Replay` | src/pages/CartPage.tsx:28-47 | definition of a run of cart actions; its properties are in `ReplayKeepsInvariants` |
| `CartPage.ApplyKeepsInvariants` | src/pages/CartPage.tsx:28-47 | no action lowers a quantity below 1; every action that writes leaves the stored value reloading to the shown cart; a rejected edit changes nothing |
| `CartPage.ReplayKeepsInvariants` | src/pages/CartPage.tsx:28-47 | from a synced cart whose quantities are all at least 1, any run of edits, removals and clears keeps both properties |
| `CartPage.CartView.constructor` | src/pages/CartPage.tsx:14-26 | after mounting, the cart is the loaded stored cart (empty when the key is absent), and it matches storage |
| `CartPage.CartView.UpdateQuantity` | src/pages/CartPage.tsx:28-36 | a quantity below 1 changes neither the cart nor storage; otherwise the cart is the updated map and storage holds the new cart |
| `CartPage.CartView.RemoveItem` | src/pages/CartPage.tsx:38-42 | the cart becomes the filtered cart and storage holds the new cart |
| `CartPage.CartView.ClearCart` | src/pages/CartPage.tsx:44-47 | the cart becomes empty and the key is deleted (`None`), not set to an empty array |

## Left out

- Fetching the catalog (`fetchProducts`, `useQuery`), with its loading and error states: network I/O through a library. The catalog is a parameter `products`.
- The confirmation popup and its `setTimeout` hide: timer and asynchronous behaviour.
- All rendering (JSX, the cart badge, the empty-cart message), `<Link>` navigation, routing in `src/App.tsx`, and the build configuration: presentation and tooling.
- JSON serialization and the `JSON.parse` failure path: parsing is a foreign call. Storage holds the parsed value directly.
- Floating-point prices and `toFixed(2)` formatting: prices are integer cents.
- `Number(e.target.value)`: the quantity is an integer argument; NaN and fractional inputs are not modelled.
- Concurrent writers to storage (several tabs), and changes to storage while a page is mounted: the two pages are used one at a time.
- ProductListing.CategoryOptions: the contract does not state that options appear in first-occurrence order, although the definition inserts them in that order.
