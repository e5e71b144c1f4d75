# Atelier storefront: cart store, catalog query and product page

This project is a Dafny model of the logic of a small React storefront:

- **Cart store** (`cart_store.dfy`, module `CartStore`). This is the session state behind the shopping bag. It holds an ordered list of cart lines, keyed by the pair (product id, size), and an `isOpen` flag for the cart drawer.
  - Each list updater (`addItem`, `removeItem`, `updateQuantity`) is a pure function from the previous lines to the next ones, as the store's setters are.
  - The `Cart` class holds the two pieces of state and applies those functions.
  - Every updater is specified against `Quantities`, a map view of the lines from key to quantity. Every updater is also proved to keep the store invariant `ValidLines`: at most one line per key, and every quantity at least 1.
  - `totalItems` and `totalPrice` are folds over the lines.
- **Catalog query** (`catalog.dfy`, module `Catalog`). This is the shop page's `filtered` list. It is the static product table, filtered by a selector that names a category or a tag (or "All"), then optionally sorted by price.
  - `Array.prototype.sort` is stable, so it is modelled as a stable insertion sort.
  - The sort is proved to be a permutation, to be sorted, and to keep the catalog order of equal prices.
  - A stable sort by price has exactly one possible result, so the model's result is the one any stable sort would give.
- **Product page** (`product_detail.dfy`, module `ProductDetail`). This covers:
  - the product table;
  - the route-id lookup with its fallback to product "1";
  - the add-to-cart handler with its "a size must be selected" guard;
  - the quantity stepper clamped at 1;
  - the "related pieces" list.

  The page's own state is the class `ProductPage`. Its add-to-cart handler calls the cart's `AddItem`.
- `options.dfy` (module `Options`) holds the `Option` type. It stands in for JavaScript's optional fields (`tag?`) and for a route parameter that may be absent.

Prices and quantities are integers. Every price in both product tables is a whole number, and every quantity the code produces is a whole number.

The shop's selector that turns filtering off is `"All"`. Its sort options are the strings `"Newest"`, `"Price: Low to High"` and `"Price: High to Low"`. The model uses these exact strings.

## Model

| member | source | states |
|---|---|---|
| CartStore.FirstLine | src/context/CartContext.tsx:47 | A new line carries the item's key, name, price, image and category, with quantity 1 |
| CartStore.Find | src/context/CartContext.tsx:37-39 | A line is found exactly when the key has a line; the line found has that key and holds the key's quantity in the keyed view |
| CartStore.Bump | src/context/CartContext.tsx:41-45 | Same length and same keys at every position; lines with the key gain exactly one unit, all other lines are unchanged |
| CartStore.SetQuantity | src/context/CartContext.tsx:60-64 | Same length and same keys at every position; lines with the key get exactly quantity q, all other lines are unchanged |
| CartStore.RemoveLine | src/context/CartContext.tsx:53 | A line is kept exactly when it does not carry the key; an absent key leaves the list unchanged |
| CartStore.RemoveLineAppend | src/context/CartContext.tsx:53 | Removing a key from two joined lists removes it from each part, so the filter never reorders |
| CartStore.RemoveLineBetween | src/context/CartContext.tsx:53 | Removing the key of the one line between two parts without it leaves exactly the two parts, joined |
| CartStore.RemoveLineAt | src/context/CartContext.tsx:52-54 | On a valid cart, removing the key of line i gives exactly the other lines, in their order |
| CartStore.AddLine | src/context/CartContext.tsx:36-48 | A present key is incremented in place; an absent key gets one new line with quantity 1, appended at the end |
| CartStore.UpdateLine | src/context/CartContext.tsx:56-66 | q <= 0 is exactly removeItem; q > 0 sets the matching line's quantity to q, keeps the length, and changes no other line |
| CartStore.TotalItemsOf | src/context/CartContext.tsx:70 | The sum of the quantities, 0 for an empty cart; how addItem, removeItem and updateQuantity change it is stated by TotalsOfBumpOnce, AddLineTotals, RemoveLineTotals and UpdateLineTotals |
| CartStore.TotalPriceOf | src/context/CartContext.tsx:71 | The sum of price times quantity, 0 for an empty cart; how addItem, removeItem and updateQuantity change it is stated by TotalsOfBumpOnce, AddLineTotals, RemoveLineTotals and UpdateLineTotals |
| CartStore.ValidCons | src/context/CartContext.tsx:3-11 | Under the invariant, the first line's key occurs nowhere after it, and the rest is valid |
| CartStore.KeysAt | src/context/CartContext.tsx:37-39 | A key is in the cart exactly when some line carries it |
| CartStore.QuantitiesOfBump | src/context/CartContext.tsx:41-45 | In the keyed view, the map step raises the key's quantity by one and nothing else |
| CartStore.QuantitiesOfSetQuantity | src/context/CartContext.tsx:60-64 | In the keyed view, the map step sets the key's quantity to q and nothing else |
| CartStore.QuantitiesOfRemoveLine | src/context/CartContext.tsx:53 | In the keyed view, the filter step deletes exactly the key |
| CartStore.QuantitiesOfAppend | src/context/CartContext.tsx:47 | Appending a line with a new key adds exactly that key with its quantity |
| CartStore.AddLineQuantities | src/context/CartContext.tsx:35-50 | addItem raises the key's quantity by exactly one (from 0 to 1 for a new key) and leaves every other key's quantity unchanged |
| CartStore.AddLinePresent | src/context/CartContext.tsx:37-46 | On a present key, addItem keeps the length and the order, increments that line by 1, and leaves every other line unchanged |
| CartStore.UpdateLineQuantities | src/context/CartContext.tsx:56-66 | q <= 0 deletes the key; q > 0 on a present key sets it to exactly q; an absent key is a no-op |
| CartStore.EmptyValid | src/context/CartContext.tsx:29 | The empty cart satisfies the invariant and has no keys and zero totals |
| CartStore.AddLineValid | src/context/CartContext.tsx:35-50 | addItem keeps at most one line per key and every quantity at least 1 |
| CartStore.RemoveLineValid | src/context/CartContext.tsx:52-54 | removeItem keeps the invariant |
| CartStore.UpdateLineValid | src/context/CartContext.tsx:56-66 | updateQuantity keeps the invariant, because a non-positive quantity deletes the line instead of storing it |
| CartStore.TotalItemsAtLeastLines | src/context/CartContext.tsx:70 | On a valid cart, totalItems is at least the number of lines, and it is 0 exactly when the cart is empty |
| CartStore.TotalPriceNonNegative | src/context/CartContext.tsx:71 | With non-negative prices, totalPrice is non-negative |
| CartStore.TotalsOfAppend | src/context/CartContext.tsx:70-71 | An appended line adds its quantity to totalItems and its price times quantity to totalPrice |
| CartStore.TotalsOfBumpOnce | src/context/CartContext.tsx:41-45 | Incrementing a present key adds one unit and that line's unit price |
| CartStore.AddLineTotals | src/context/CartContext.tsx:35-50 | Each addItem adds exactly one unit, priced at the existing line's captured price, or at the item's price for a new key |
| CartStore.RemoveLineTotals | src/context/CartContext.tsx:52-54 | removeItem takes away exactly the removed line's units and its price times quantity |
| CartStore.SetQuantityItems | src/context/CartContext.tsx:60-64 | Setting a present key's quantity to q replaces that line's units by q in the item total |
| CartStore.SetQuantityPrice | src/context/CartContext.tsx:60-64 | Setting a present key's quantity to q replaces that line's price times quantity by its price times q in the price total |
| CartStore.UpdateLineTotals | src/components/CartDrawer.tsx:95-102 | updateQuantity with a positive quantity on a present line (the drawer's minus and plus buttons) changes the item total by q minus the old quantity and the price total by the line's price times that difference |
| CartStore.AddAllCounts | src/context/CartContext.tsx:35-50 | After any sequence of addItem calls, the invariant holds, each key's quantity has grown by the number of calls with that key, and totalItems by the number of calls |
| CartStore.AddAllFromEmpty | src/context/CartContext.tsx:35-50 | From an empty cart, each key's quantity equals the number of addItem calls made with it |
| CartStore.SameKeyTwiceScenario | src/context/CartContext.tsx:35-66 | Adding product 3 in M, M, L gives [M x2, L x1], with 3 units and 585 total; updateQuantity(3, "M", 0) then leaves [L x1] |
| CartStore.DrawerDecrementAtOne | src/components/CartDrawer.tsx:95 | The drawer's minus button on a one-unit line removes that line, so the cart has one line fewer |
| CartStore.RemoveLineCount | src/context/CartContext.tsx:53 | On a valid cart, removing a present key drops exactly one line, and removing an absent key drops none |
| CartStore.Cart.constructor | src/context/CartContext.tsx:29-30 | A new session has no lines and a closed drawer |
| CartStore.Cart.OpenCart | src/context/CartContext.tsx:32 | Sets isOpen and leaves the lines unchanged |
| CartStore.Cart.CloseCart | src/context/CartContext.tsx:33 | Clears isOpen and leaves the lines unchanged |
| CartStore.Cart.AddItem | src/context/CartContext.tsx:35-50 | New lines are AddLine of the old lines, and the drawer is open; the invariant is kept, the key's quantity rises by one, and totalItems by one |
| CartStore.Cart.RemoveItem | src/context/CartContext.tsx:52-54 | New lines are RemoveLine of the old lines, and exactly the key leaves the keyed view; the invariant and isOpen are kept |
| CartStore.Cart.UpdateQuantity | src/context/CartContext.tsx:56-66 | New lines are UpdateLine of the old lines: removal for q <= 0, exactly q for a present key, and no change for an absent key; the invariant and isOpen are kept |
| CartStore.Cart.ClearCart | src/context/CartContext.tsx:68 | The cart is empty and isOpen is unchanged |
| CartStore.Cart.TotalItems | src/context/CartContext.tsx:70 | totalItems is at least the number of lines, and 0 exactly when the cart is empty |
| CartStore.Cart.TotalPrice | src/context/CartContext.tsx:71 | totalPrice is non-negative when every price is |
| Catalog.Matches | src/pages/Shop.tsx:34 | A product matches exactly when its category or its tag equals the selector: either equality suffices, a match implies one of them, and a product without a tag matches only by its category |
| Catalog.FilterBy | src/pages/Shop.tsx:33-35 | The filter never lengthens the list |
| Catalog.Selected | src/pages/Shop.tsx:30-36 | "All" keeps the catalog as it is; any other selector keeps exactly the catalog products that match it |
| Catalog.FilterByAppend | src/pages/Shop.tsx:33-35 | Filtering two joined lists filters each part, so the kept products stay in catalog order |
| Catalog.FilterByWithPrice | src/pages/Shop.tsx:33-35 | The filtered products of one price are the catalog's products of that price, filtered, in catalog order |
| Catalog.FilterByMembers | src/pages/Shop.tsx:33-35 | The filter keeps exactly the products whose category or tag equals the selector; a product without a tag can match only by its category |
| Catalog.FilterByNone | src/pages/Shop.tsx:33-35 | When no product matches, the filter is empty |
| Catalog.WithPriceMembers | src/pages/Shop.tsx:38-39 | The run of one price holds exactly the products of that price |
| Catalog.InsertPermutes | src/pages/Shop.tsx:38-39 | One insertion step only reorders: it adds the one element to the multiset |
| Catalog.InsertSorted | src/pages/Shop.tsx:38-39 | Inserting into a sorted list keeps it sorted under the comparator |
| Catalog.InsertStable | src/pages/Shop.tsx:38-39 | The inserted element comes first among the products of its price, and every price's other products keep their order |
| Catalog.SortByPrice | src/pages/Shop.tsx:38-39 | The result is a permutation of the input, is ordered by the comparator, and keeps the input order of equal prices |
| Catalog.Query | src/pages/Shop.tsx:29-42 | The result is a permutation of the filtered subset. It holds exactly the catalog products matching the selector (all of them for "All"). It is ascending or descending by price for the two price orders, keeps the catalog order of equal prices, and is the filtered list itself for any other order |
| Catalog.QueryKeepsCatalogOrder | src/pages/Shop.tsx:29-42 | For every selector and sort, the products of each price appear in catalog order: each price's run is the catalog's run of that price, filtered by the selector |
| Catalog.QueryNoMatch | src/pages/Shop.tsx:32-36 | A selector that no product matches yields an empty list |
| Catalog.HeadRunNonEmpty | src/pages/Shop.tsx:38-39 | A non-empty list has a non-empty run at the price of its first product |
| Catalog.HeadFirst | src/pages/Shop.tsx:38-39 | In a sorted list the head is in order with every element |
| Catalog.SameHead | src/pages/Shop.tsx:38-39 | Two sorted lists with the same runs start with the same product |
| Catalog.SortedRunsDetermine | src/pages/Shop.tsx:38-39 | Two sorted lists with the same equal-price runs are equal |
| Catalog.StableSortIsUnique | src/pages/Shop.tsx:38-39 | Any sorted permutation that keeps equal prices in input order is the model's sort result, so the model agrees with every stable sort |
| Catalog.AllNewestExample | src/pages/Shop.tsx:10-19 | "All" with "Newest" gives the catalog in its own order |
| Catalog.MenLowToHighExample | src/pages/Shop.tsx:10-39 | "Men" sorted low to high gives ids 7, 5, 1, 4 |
| Catalog.MenSortedExample | src/pages/Shop.tsx:38 | The Men products 1, 4, 5, 7 sorted ascending give 7, 5, 1, 4 |
| Catalog.SaleExample | src/pages/Shop.tsx:10-36 | "Sale" gives ids 4, 7 |
| Catalog.NewArrivalsExample | src/pages/Shop.tsx:10-36 | "New Arrivals" gives id 6 |
| Options.Option.GetOr | src/pages/ProductDetail.tsx:56 | A present value is returned as is, and an absent one becomes the default |
| ProductDetail.RouteId | src/pages/ProductDetail.tsx:56 | The route's id when it has one, and "1", a table key, when it has none |
| ProductDetail.TableWellFormed | src/pages/ProductDetail.tsx:11-51 | Every table product has at least one image and one size, and product "1" exists |
| ProductDetail.Lookup | src/pages/ProductDetail.tsx:57 | A known id gives its table entry; any other id gives product "1" |
| ProductDetail.DisplayedKey | src/pages/ProductDetail.tsx:57 | The table key of the product actually displayed |
| ProductDetail.CartPayload | src/pages/ProductDetail.tsx:72-79 | The added item carries the product's id, name, price and category, the selected size, and the first image |
| ProductDetail.Without | src/pages/ProductDetail.tsx:84 | The filter never lengthens the list |
| ProductDetail.WithoutMembers | src/pages/ProductDetail.tsx:84 | The filter keeps exactly the ids different from the given one |
| ProductDetail.Slice | src/pages/ProductDetail.tsx:84 | slice(0, n) is the prefix of length n, or the whole list when it has fewer than n elements |
| ProductDetail.RelatedAsWritten | src/pages/ProductDetail.tsx:53-84 | As written, the related list has at most 3 ids, all from the table, and never the route id |
| ProductDetail.RelatedAsWrittenValues | src/pages/ProductDetail.tsx:53-84 | For each route id, the list is the other table ids in table order, cut to 3; for an unknown id it is 1, 2, 3 |
| ProductDetail.TableIdsDistinct | src/pages/ProductDetail.tsx:11-51 | Different keys name products with different ids |
| ProductDetail.RelatedAsWrittenShowsDisplayed | src/pages/ProductDetail.tsx:57-84 | Route id "5" displays product 1, yet the as-written related list contains "1"; the corrected list does not |
| ProductDetail.Related | src/pages/ProductDetail.tsx:84 | The corrected list never shows the displayed product, and agrees with the as-written list for every known id |
| ProductDetail.ProductPage.constructor | src/pages/ProductDetail.tsx:56-64 | A missing route id defaults to "1", and the product is the lookup result; no size, quantity 1, no error, not added |
| ProductDetail.ProductPage.SelectSize | src/pages/ProductDetail.tsx:173 | Selecting a size records it and clears the size error |
| ProductDetail.ProductPage.DecrementQuantity | src/pages/ProductDetail.tsx:200 | The quantity drops by one but never below 1 |
| ProductDetail.ProductPage.IncrementQuantity | src/pages/ProductDetail.tsx:207 | The quantity rises by exactly one |
| ProductDetail.ProductPage.HandleAddToCart | src/pages/ProductDetail.tsx:66-80 | With no size, it sets the size error and leaves the cart untouched. With a size, it clears the error, marks the item added, and adds the payload to the cart through addItem, which opens the drawer; the cart gains exactly one unit whatever the stepper shows |

## Left out

- Rendering is not modelled: JSX, the Tailwind classes, the framer-motion animations and `AnimatePresence`. None of them holds state the logic depends on.
- react-router is not modelled. The route parameter is an `Option<string>` input to `ProductPage`'s constructor.
- React's hook machinery is not modelled: `useState`, `useCallback`, `useMemo` and context creation. `useCart` throwing outside its provider (`src/context/CartContext.tsx:93-97`) is not modelled either. The `Cart` object is passed to `ProductPage` directly.
- The `setTimeout` that resets `added` after two seconds (`src/pages/ProductDetail.tsx:81`) is not modelled, because it is a timer. After `HandleAddToCart`, `added` stays true.
- `toFixed(2)` currency formatting is not modelled, because it is display only.
- Prices and quantities are unbounded integers, not JavaScript floating-point numbers. Every value the code produces is a small whole number.
- The description, fabric and care texts of the product page's table are not modelled; they are display only.
- The image gallery's `selectedImage` state is not modelled; it is display only.
- A route id equal to an `Object.prototype` property name (`"toString"`, say) would make `products[id]` return an inherited value. The model treats every id outside the table as unknown.
- `src/pages/Index.tsx`, `About.tsx`, `Collections.tsx`, `Contact.tsx`, and `src/components/Footer.tsx` and `Navbar.tsx` are not part of this model: they are static content, form inputs and scroll listeners. Of `src/components/CartDrawer.tsx`, only the two quantity buttons' calls to `updateQuantity` are modelled: `DrawerDecrementAtOne` covers the minus button on a one-unit line, and `UpdateLineTotals` covers the minus button above one unit and the plus button.
- CartStore.Cart.AddItem, RemoveItem and UpdateQuantity require `Valid()`, the store invariant, as an object invariant. Every constructor and method establishes or preserves it, so it holds in every reachable state.
- Catalog.Query works on values, so the catalog it reads cannot change. `result.sort` sorting its local copy in place is modelled as a function that returns the sorted copy.
- CartStore.Cart.OpenCart and CloseCart are idempotent by their contracts: the flag they set depends only on the call. No separate lemma states this.

## Findings

| source | as written | input that shows it | evidently intended | confidence | as-written member | corrected member |
|---|---|---|---|---|---|---|
| src/pages/ProductDetail.tsx:57-84 | `related` filters `relatedIds` by the route id, while the page displays `products[id] \|\| products["1"]` | route id "5", reached from the shop's link to product 5: the page shows product 1, and the related list is "1", "2", "3", so the displayed product is offered as related to itself | filter by the key of the product actually displayed, giving "2", "3", "4" | not executed | ProductDetail.RelatedAsWrittenShowsDisplayed | ProductDetail.Related |
