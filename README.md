# A verified model of the AlwaysMarket storefront's client logic

AlwaysMarket is an Angular storefront with a product catalogue, a cart, a
dashboard for editing products, and route guards in front of the admin
pages. This project models, in Dafny, the client-side logic that decides
what the application shows and sends. Each behaviour is stated as a
contract, and properties of it are proved:

- **Product store.** One state record that every action replaces. Partial
  updates are merged, and an unchanged record is not published. The store
  also derives the products view.
- **Cart.** A keyed list of (product id, quantity) entries, supporting
  add-or-increment, removal and set-or-remove. It has item and price
  totals, and its count is mirrored in the header badge. The cart page
  joins entries with products and applies the free-shipping rule; the
  cart list component holds the per-item quantity editor.
- **Dashboard product table.** A pagination state machine over pages of 20.
- **Start-up reconciliation with the bundled backup.** This covers:
  - detecting missing categories and products, case-insensitively;
  - the restore decision;
  - the comma-separated image parser;
  - the old-to-new category mapping;
  - the product skip and count rule;
  - the once-per-process guard flags.
- **Access log.** A newest-first buffer capped at 100 entries, together
  with the admin and signed-in guards that write to it.
- **String and URL rules:**
  - image URL sanitising;
  - the header's local product search;
  - the user filter;
  - route-to-CSS-class classification;
  - the product form validators and image list editing in the create and
    update dialogs.
- **Small decision machines:**
  - theme cycling and resolution;
  - the category toggle and query building of the product list page;
  - the header search dispatch;
  - the safe-image component's guard against a superseded image's callbacks.

Each core TypeScript file is one Dafny module, named after it and kept in
the same form:

- A service or component whose fields change is a `class` whose methods
  carry `modifies` and state the whole new state.
- The pure parts are functions, with lemmas about them.
- A loop in the source is a `while` loop with its invariants.

Four shared modules serve the rest:

- `Wrappers`: `Option`, for `null`/`undefined`.
- `Seqs`: filter, map and the subsequence order.
- `Text`: JavaScript's `trim`, `includes`, `split`/`join` and integer
  `toString`, and `toLowerCase` for the capitals of Basic Latin, Latin-1
  and Cyrillic.
- `Router`: navigation records.

The outside world is replaced as follows:

- Network answers, dialog confirmations, parsed numbers and the URL
  parser arrive as parameters: success with a payload, or `None` for a
  failure.
- Emitted events, navigations, snackbar messages and issued requests are
  recorded in `seq` fields.
- Browser storage, cookies and CSS class lists are plain fields.

## Model

| member | source | states |
|---|---|---|
| Store.Merge | src/app/modules/products/store/products.store.ts:93-105 | every field given in the partial record is overwritten and every field not given keeps its old value |
| Store.MergeLaws | src/app/modules/products/store/products.store.ts:93-105 | an empty partial record changes nothing; merging the same partial record twice equals merging it once |
| Store.Publish | src/app/modules/products/store/products.store.ts:98-104 | the subject emits the merged record only when it differs from the current one; otherwise the log of emissions is unchanged |
| Store.MergeFilters | src/app/modules/products/store/products.store.ts:183-187 | each given filter key replaces the old value (a key given as undefined clears it), each absent key keeps the old one |
| Store.MergeFiltersLaws | src/app/modules/products/store/products.store.ts:183-187 | an empty patch keeps the filters, repeating a patch changes nothing, and two updates equal one update with the combined patch |
| Store.MergePagination | src/app/modules/products/store/products.store.ts:223-227 | each given pagination field replaces the old one, each absent field keeps the old one |
| Store.MergePaginationLaws | src/app/modules/products/store/products.store.ts:223-227 | an empty patch keeps the pagination, repeating a patch changes nothing, and two updates equal one update with the combined patch |
| Store.View | src/app/modules/products/store/products.store.ts:77-90 | the view shows the filtered list with the products-loading flag and the error; isEmpty holds iff not loading and the filtered list is empty; the label is the selected category name, or the all-products label when none is selected or its name is empty |
| Store.InitialStateFacts | src/app/modules/products/store/products-store.state.ts:26-46 | a fresh store has empty lists, no current or selected product or category, no error, all loading flags false, filters limit 20 offset 0 (different from the cleared filters), pagination 18/0/0/false; its view is empty and labelled all products |
| Store.ProductsStore.constructor | src/app/modules/products/store/products.store.ts:11 | the store starts at the initial record, which the subject emits once |
| Store.ProductsStore.UpdateState | src/app/modules/products/store/products.store.ts:93-105 | the new record is the merge of the patch over the old one; it is emitted iff it differs from the old one |
| Store.ProductsStore.SetProducts | src/app/modules/products/store/products.store.ts:108-113 | both product lists become exactly the given list; every other field is unchanged |
| Store.ProductsStore.AddProducts | src/app/modules/products/store/products.store.ts:115-122 | the full list becomes the old list followed by the page, its length grows by the page length, and the displayed list equals the new full list |
| Store.ProductsStore.SetFilteredProducts | src/app/modules/products/store/products.store.ts:124-126 | only the displayed list changes, to the given list |
| Store.ProductsStore.ClearProducts | src/app/modules/products/store/products.store.ts:128-133 | both product lists become empty; nothing else changes |
| Store.ProductsStore.AddProduct | src/app/modules/products/store/products.store.ts:135-141 | the product is appended to the full list and the displayed list becomes that list |
| Store.ProductsStore.UpdateProduct | src/app/modules/products/store/products.store.ts:143-154 | entries with the product id are replaced in both lists with length and order kept; the current product is replaced only when its id matches |
| Store.ProductsStore.DeleteProduct | src/app/modules/products/store/products.store.ts:156-165 | entries with the id are removed from both lists; the current product is cleared only when it had that id |
| Store.ProductsStore.SetCurrentProduct | src/app/modules/products/store/products.store.ts:167-169 | only the current product changes |
| Store.ProductsStore.SetCategories | src/app/modules/products/store/products.store.ts:172-174 | only the categories change |
| Store.ProductsStore.SelectCategory | src/app/modules/products/store/products.store.ts:176-180 | only the selected category changes |
| Store.ProductsStore.UpdateFilters | src/app/modules/products/store/products.store.ts:183-187 | only the filters change, to the merge of the patch over the old filters |
| Store.ProductsStore.ClearFilters | src/app/modules/products/store/products.store.ts:189-195 | filters become limit 10 offset 0 and the selected category none; products and categories are untouched |
| Store.ProductsStore.SetLoading | src/app/modules/products/store/products.store.ts:198-200 | only the general loading flag changes |
| Store.ProductsStore.SetLoadingProducts | src/app/modules/products/store/products.store.ts:202-204 | only the products loading flag changes |
| Store.ProductsStore.SetLoadingCategories | src/app/modules/products/store/products.store.ts:206-208 | only the categories loading flag changes |
| Store.ProductsStore.SetError | src/app/modules/products/store/products.store.ts:211-220 | setting the error the store already holds changes and emits nothing; any other value is set and emitted |
| Store.ProductsStore.UpdatePagination | src/app/modules/products/store/products.store.ts:223-227 | only the pagination changes, to the merge of the patch over the old pagination |
| Store.ProductsStore.ResetState | src/app/modules/products/store/products.store.ts:234-236 | the record goes back to the initial one and is emitted even when nothing changed |
| Store.ProductsStore.ProductsView | src/app/modules/products/store/products.store.ts:77-90 | the current view is the view of the current record |
| ProductModel.ReplaceById | src/app/modules/products/store/products.store.ts:144-146 | same length; every entry with the id becomes the update, every other entry is kept; a list without the id is unchanged |
| ProductModel.RemoveById | src/app/modules/products/store/products.store.ts:157 | no remaining entry has the id, and every entry without the id remains exactly as often as it occurred |
| ProductModel.RemoveByIdKeepsOrder | src/app/modules/products/store/products.store.ts:156-165 | removal keeps the order of what remains and removes nothing when the id is absent |
| Cart.FindIndex | src/app/core/cart/cart.service.ts:67 | the first position holding the id, or none iff no entry has it |
| Cart.RemoveFrom | src/app/core/cart/cart.service.ts:86-90 | no entry with the id remains, nothing new appears, and every entry with another id remains |
| Cart.SetQuantity | src/app/core/cart/cart.service.ts:93-107 | a quantity below 1 saves exactly the removal; otherwise nothing is saved iff the id is absent |
| Cart.ItemQuantity | src/app/core/cart/cart.service.ts:115-119 | 0 for an absent id, otherwise the quantity at the first position holding it |
| Cart.IsInCart | src/app/core/cart/cart.service.ts:122-124 | in the cart iff the item quantity is positive |
| Cart.UniqueCountDistinct | src/app/core/cart/cart.service.ts:147-149 | on a cart without repeated product ids the entry count getUniqueItemsCount returns is the number of distinct products |
| Cart.TotalItemsAppend | src/app/core/cart/cart.service.ts:132-135 | the item count of two carts put together is the sum of their counts |
| Cart.TotalItemsUpdate | src/app/core/cart/cart.service.ts:132-135 | replacing one entry changes the item count by the new quantity minus the old one |
| Cart.AddToTotal | src/app/core/cart/cart.service.ts:65-83 | adding q of a product raises the item count by exactly q, whether or not it was present |
| Cart.AddToShape | src/app/core/cart/cart.service.ts:67-80 | for a present product only that entry grows: same length, same ids, its quantity plus q; for an absent product one entry is appended at the end |
| Cart.FindIndexFirst | src/app/core/cart/cart.service.ts:67 | a position holding the id with no earlier one is the index found |
| Cart.AddToOthers | src/app/core/cart/cart.service.ts:65-83 | adding to one product leaves every other product quantity unchanged |
| Cart.AddToKeepsNoDup | src/app/core/cart/cart.service.ts:65-83 | adding keeps a cart free of repeated ids |
| Cart.RemoveFromCounts | src/app/core/cart/cart.service.ts:86-90 | every entry with another id remains exactly as often as it occurred, and none with the id |
| Cart.RemoveFromTotalAny | src/app/core/cart/cart.service.ts:86-90 | on any cart, removal lowers the item count by the summed quantity of all entries with the id |
| Cart.RemoveFromKeepsNoDup | src/app/core/cart/cart.service.ts:86-90 | removing keeps a cart free of repeated ids |
| Cart.RemoveFromTotal | src/app/core/cart/cart.service.ts:86-90 | on a cart without repeated ids, removal lowers the item count by the removed quantity |
| Cart.RemoveFromGone | src/app/core/cart/cart.service.ts:86-90 | removal keeps the other entries in order and leaves the product with quantity 0, not in the cart |
| Cart.SetQuantityPresent | src/app/core/cart/cart.service.ts:99-106 | for a present product and q at least 1 the cart is saved, the product quantity becomes q, the count changes by q minus the old quantity, other products are unchanged and no id is repeated |
| Cart.TotalPriceAppend | src/app/core/cart/cart.service.ts:138-144 | the total price of two carts put together is the sum of their totals |
| Cart.TotalPriceUnpriced | src/app/core/cart/cart.service.ts:138-144 | entries whose product has no price contribute 0 |
| Cart.AddToPrice | src/app/core/cart/cart.service.ts:65-83 | adding q of an absent, priced product raises the total price by price times q |
| Cart.CartCounts | src/app/core/cart/cart.service.ts:29-31 | one count per cart value emitted, each the sum of that cart quantities |
| Cart.CartService.constructor | src/app/core/cart/cart.service.ts:26-41 | the service starts with the stored cart and emits it |
| Cart.CartService.Save | src/app/core/cart/cart.service.ts:53-62 | when the storage write succeeds the stored cart becomes the given one and is emitted; when it throws, neither the stored cart nor the subject changes |
| Cart.CartService.AddToCart | src/app/core/cart/cart.service.ts:65-83 | the cart becomes the add-or-increment result, is emitted, and its item count grows by q; when the storage write fails nothing is stored or emitted |
| Cart.CartService.RemoveFromCart | src/app/core/cart/cart.service.ts:86-90 | the cart becomes the removal result and is emitted; when the storage write fails nothing is stored or emitted |
| Cart.CartService.UpdateQuantity | src/app/core/cart/cart.service.ts:93-107 | below 1 it saves the removal; at 1 or more it sets the first entry with the id; for an absent id, or when the storage write fails, nothing is saved or emitted |
| Cart.CartService.ClearCart | src/app/core/cart/cart.service.ts:127-129 | the cart becomes empty and is emitted, its item count and entry count 0; when the storage write fails nothing is stored or emitted |
| ProductsList.CartMapKeys | src/app/modules/products/components/products-list/products-list.component.ts:49-54 | the rebuilt map has a key for an id iff the cart holds that id |
| ProductsList.CartMapLast | src/app/modules/products/components/products-list/products-list.component.ts:49-54 | the map holds the quantity of the last cart entry with the id |
| ProductsList.QuantityInCart | src/app/modules/products/components/products-list/products-list.component.ts:69-71 | 0 for an id with no entry |
| ProductsList.QuantityMatchesCart | src/app/modules/products/components/products-list/products-list.component.ts:69-71 | on a cart without repeated ids the shown quantity is the cart item quantity |
| ProductsList.EventTerm | src/app/modules/products/components/products-list/products-list.component.ts:100-104 | a string event is emitted as is, otherwise its param, otherwise the empty string |
| ProductsList.IsCategorySelected | src/app/modules/products/components/products-list/products-list.component.ts:112-114 | selected iff a category is selected and its id equals the given category id |
| ProductsList.ProductsListComponent.constructor | src/app/modules/products/components/products-list/products-list.component.ts:34-43 | no quantities and nothing emitted yet |
| ProductsList.ProductsListComponent.OnCartItems | src/app/modules/products/components/products-list/products-list.component.ts:49-54 | the map is rebuilt from scratch from the emitted cart |
| ProductsList.ProductsListComponent.NgOnInit | src/app/modules/products/components/products-list/products-list.component.ts:47-55 | after subscribing the map reflects the cart |
| ProductsList.ProductsListComponent.OnAddToCart | src/app/modules/products/components/products-list/products-list.component.ts:73-80 | id 0 or a failed storage write changes nothing; any other id is added with the default quantity and the map follows the cart |
| ProductsList.ProductsListComponent.OnIncreaseQuantity | src/app/modules/products/components/products-list/products-list.component.ts:82-85 | asks the cart for the shown quantity plus one, which for a product not in the cart, or on a failed write, leaves cart and map unchanged |
| ProductsList.ProductsListComponent.OnDecreaseQuantity | src/app/modules/products/components/products-list/products-list.component.ts:87-94 | above 1 the cart is asked for one less; at 1 or below the product is removed; a failed write changes neither cart nor map |
| ProductsList.ProductsListComponent.OnRemoveFromCart | src/app/modules/products/components/products-list/products-list.component.ts:96-98 | the product is removed and the map follows the cart; a failed write changes neither |
| ProductsList.ProductsListComponent.OnFilteredItems | src/app/modules/products/components/products-list/products-list.component.ts:100-104 | emits the term of the event and nothing else changes |
| ProductsList.ProductsListComponent.OnCategorySelect | src/app/modules/products/components/products-list/products-list.component.ts:106-110 | emits the term of the event on the category output and nothing else changes |
| DashboardProducts.PageOffset | src/app/modules/dashboard/pages/dashboard-products/dashboard-products.component.ts:118 | page n starts at n times 20, so each page starts 20 after the previous one |
| DashboardProducts.DashboardProductsComponent.constructor | src/app/modules/dashboard/pages/dashboard-products/dashboard-products.component.ts:57-67 | no products, page 0, more expected, nothing loading, no request issued, no notice |
| DashboardProducts.DashboardProductsComponent.StartInitialLoad | src/app/modules/dashboard/pages/dashboard-products/dashboard-products.component.ts:84-88 | initial loading starts at page 0 with a request for 20 items at offset 0 |
| DashboardProducts.DashboardProductsComponent.CompleteInitialLoad | src/app/modules/dashboard/pages/dashboard-products/dashboard-products.component.ts:89-105 | a page replaces the list, hasMore iff it had 20 items and the page becomes 1; a failure empties the list and shows the load-failure notice; loading ends; a successful load leaves the list contiguous |
| DashboardProducts.DashboardProductsComponent.StartLoadMore | src/app/modules/dashboard/pages/dashboard-products/dashboard-products.component.ts:111-121 | nothing at all happens while loading or after the last page; otherwise one request for 20 items at offset page times 20, which is the list length when the list is contiguous |
| DashboardProducts.DashboardProductsComponent.CompleteLoadMore | src/app/modules/dashboard/pages/dashboard-products/dashboard-products.component.ts:124-148 | a page is appended, hasMore iff it had 20 items and the page advances only past a non-empty page; a failure changes nothing but the load-more notice; loading ends; contiguity is preserved |
| DashboardProducts.DashboardProductsComponent.DeleteProduct | src/app/modules/dashboard/pages/dashboard-products/dashboard-products.component.ts:210-233 | after a confirmed, successful delete every product with the id is gone, the rest keep their order and the deleted notice shows; a confirmed failure shows the failure notice; otherwise the list is unchanged |
| DashboardProducts.DashboardProductsComponent.OnDialogClosed | src/app/modules/dashboard/pages/dashboard-products/dashboard-products.component.ts:180-207 | a dialog closing with success restarts loading from page 0 and shows the created or updated notice for that dialog; any other result changes nothing |
| DataInitialization.MissingNames | src/app/modules/products/services/data-services/data-initialization.service.ts:154-187 | every missing name is a backup name with no case-insensitively equal current name, and every such backup name is missing |
| DataInitialization.MissingNamesInOrder | src/app/modules/products/services/data-services/data-initialization.service.ts:154-187 | missing names keep the backup order |
| DataInitialization.MissingNamesExtremes | src/app/modules/products/services/data-services/data-initialization.service.ts:154-187 | nothing is missing when every backup name is present; everything is missing from an empty catalogue |
| DataInitialization.MissingNamesSnoc | src/app/modules/products/services/data-services/data-initialization.service.ts:157-165 | one more backup name adds it at the end exactly when it is missing |
| DataInitialization.CategoryNames | src/app/modules/products/services/data-services/data-initialization.service.ts:157 | the backup category names, position by position |
| DataInitialization.ProductTitles | src/app/modules/products/services/data-services/data-initialization.service.ts:176 | the backup product titles, position by position |
| DataInitialization.CurrentCategoryNames | src/app/modules/products/services/data-services/data-initialization.service.ts:158-160 | the current category names, position by position |
| DataInitialization.CurrentProductTitles | src/app/modules/products/services/data-services/data-initialization.service.ts:177-179 | the current product titles, position by position |
| DataInitialization.FindMissingCategories | src/app/modules/products/services/data-services/data-initialization.service.ts:154-168 | the loop result is the backup category names with no case-insensitive match, in backup order |
| DataInitialization.FindMissingProducts | src/app/modules/products/services/data-services/data-initialization.service.ts:173-187 | the loop result is the backup product titles with no case-insensitive match, in backup order |
| DataInitialization.CheckDatabaseState | src/app/modules/products/services/data-services/data-initialization.service.ts:101-149 | a failed check asks for a restore with All in both lists; otherwise the two missing lists; restore is needed iff one of them is non-empty |
| DataInitialization.RestoreDecision | src/app/modules/products/services/data-services/data-initialization.service.ts:129 | restore is needed iff some backup category name or product title has no match up to case |
| DataInitialization.RestoreDecisionOnEmpty | src/app/modules/products/services/data-services/data-initialization.service.ts:129 | an empty catalogue (both reads failed) needs a restore iff the backup is non-empty |
| DataInitialization.CategoryRequest | src/app/modules/products/services/data-services/data-initialization.service.ts:253-256 | the create request carries the backup name and its image, or the placeholder when the image is empty; the image is never empty |
| DataInitialization.Successful | src/app/modules/products/services/data-services/data-initialization.service.ts:271 | the successful creations, at most as many as the requests |
| DataInitialization.CreateCategoryMapping | src/app/modules/products/services/data-services/data-initialization.service.ts:271-281 | the loop builds exactly the mapping as written, pairing backup index i with the i-th successful creation |
| DataInitialization.MappingAsWrittenSize | src/app/modules/products/services/data-services/data-initialization.service.ts:277-281 | the mapping has at most min(backup count, successful count) keys |
| DataInitialization.MappingAsWrittenMisaligns | src/app/modules/products/services/data-services/data-initialization.service.ts:271-281 | with ids 1, 2, 3 and the second creation failing, "2" maps to the third new id and "3" has no entry |
| DataInitialization.CategoryMappingAligned | src/app/modules/products/services/data-services/data-initialization.service.ts:274-281 | with distinct backup ids each recreated category maps to its own new id, and only recreated categories are keys |
| DataInitialization.MappingsAgreeWithoutFailures | src/app/modules/products/services/data-services/data-initialization.service.ts:271-281 | when every creation succeeds the mapping as written equals the intended one |
| DataInitialization.AllSuccessful | src/app/modules/products/services/data-services/data-initialization.service.ts:271 | with no failure the successful list is the whole result list |
| DataInitialization.MappingAsWrittenPrefix | src/app/modules/products/services/data-services/data-initialization.service.ts:277-281 | the mapping as written only reads the first backup-count successes |
| DataInitialization.Pieces | src/app/modules/products/services/data-services/data-initialization.service.ts:403-413 | every piece is trimmed, non-empty and holds no comma |
| DataInitialization.ParseImages | src/app/modules/products/services/data-services/data-initialization.service.ts:403-413 | never empty, every entry trimmed, non-empty and comma-free; an empty string gives the placeholder alone |
| DataInitialization.PlaceholderIsClean | src/app/modules/products/services/data-services/data-initialization.service.ts:43 | the placeholder is itself an acceptable entry |
| DataInitialization.ParseImagesRoundTrip | src/app/modules/products/services/data-services/data-initialization.service.ts:403-413 | parsing the comma-join of a parsed list gives the same list |
| DataInitialization.CleanListParses | src/app/modules/products/services/data-services/data-initialization.service.ts:403-413 | any non-empty list of clean entries is what its comma-join parses to |
| DataInitialization.PiecesOfJoin | src/app/modules/products/services/data-services/data-initialization.service.ts:409 | the pieces of the comma-join of clean entries are those entries |
| DataInitialization.SplitJoinClean | src/app/modules/products/services/data-services/data-initialization.service.ts:409 | splitting the comma-join of comma-free entries gives them back |
| DataInitialization.JoinNotEmpty | src/app/modules/products/services/data-services/data-initialization.service.ts:404-405 | a join whose first part is non-empty is non-empty |
| DataInitialization.TrimAllTrimmed | src/app/modules/products/services/data-services/data-initialization.service.ts:409 | trimming already trimmed entries changes nothing |
| DataInitialization.MappedCategory | src/app/modules/products/services/data-services/data-initialization.service.ts:329-334 | a product has a new category id iff its old id is mapped to a non-zero id, and then it is that id |
| DataInitialization.ProductRequest | src/app/modules/products/services/data-services/data-initialization.service.ts:329-345 | a product is skipped iff it has no mapped category; otherwise the request carries its title, price, description, the mapped id and the parsed images |
| DataInitialization.ProductsCreated | src/app/modules/products/services/data-services/data-initialization.service.ts:358-366 | the number of created products never exceeds the backup count |
| DataInitialization.NoMappingNoProducts | src/app/modules/products/services/data-services/data-initialization.service.ts:329-334 | with no usable mapping no product is created |
| DataInitialization.RestoreOutcome | src/app/modules/products/services/data-services/data-initialization.service.ts:201-208 | success iff at least one product was created; a failure carries the failure message |
| DataInitialization.Restore | src/app/modules/products/services/data-services/data-initialization.service.ts:358-366 | the products created never exceed the backup products, and the categories created are the keys of the intended mapping |
| DataInitialization.NoCategoriesNoRestore | src/app/modules/products/services/data-services/data-initialization.service.ts:201-208 | a restore in which no category was recreated fails |
| DataInitialization.EmptyMapping | src/app/modules/products/services/data-services/data-initialization.service.ts:277-281 | no successful creation gives an empty mapping |
| DataInitialization.DataInitializationService.constructor | src/app/modules/products/services/data-services/data-initialization.service.ts:39-40 | neither flag is set |
| DataInitialization.DataInitializationService.InitializeData | src/app/modules/products/services/data-services/data-initialization.service.ts:48-61 | a run in progress answers in-progress success, an attempted run answers already-completed success, and only a first call starts work, setting both flags |
| DataInitialization.DataInitializationService.FinishInitialization | src/app/modules/products/services/data-services/data-initialization.service.ts:82-88 | the run is over; the attempted flag stays |
| DataInitialization.DataInitializationService.ResetInitialization | src/app/modules/products/services/data-services/data-initialization.service.ts:482-485 | both flags are cleared, so the next call starts work again |
| DataInitialization.Outcome | src/app/modules/products/services/data-services/data-initialization.service.ts:65-81 | nothing missing gives healthy success; otherwise the restore outcome, and a failed restore is not a success |
| LogService.Logged | src/app/core/auth/log.service.ts:19-30 | the entry is at the front, the buffer never exceeds 100, below the cap the old buffer follows, at the cap the oldest entry is dropped |
| LogService.LoggedKeepsOrder | src/app/core/auth/log.service.ts:20-24 | below the cap the length grows by one and nothing is lost; at the cap the length stays and only the last entry goes |
| LogService.DisplayEmail | src/app/core/auth/log.service.ts:34 | a missing or empty email shows as Guest, any other is shown as is |
| LogService.GetLogs | src/app/core/auth/log.service.ts:32-37 | same length and order; every field copied except the email, shown through the Guest rule |
| LogService.GetLogsShowsEveryEmail | src/app/core/auth/log.service.ts:32-37 | the copy never shows an empty email and copying it again changes nothing |
| LogService.LogService.constructor | src/app/core/auth/log.service.ts:17 | the buffer starts empty |
| LogService.LogService.LogAccessAttempt | src/app/core/auth/log.service.ts:19-30 | the buffer becomes the logged result and stays within the cap |
| LogService.LogService.Logs | src/app/core/auth/log.service.ts:32-37 | the displayed copy of the current buffer |
| AdminGuard.CheckAdmin | src/app/core/auth/admin.guard.ts:10-84 | the profile is asked for iff there is a token; access is granted iff the role is admin, and exactly then nothing is logged; no token logs a guest and redirects home; a failed profile logs unauthorized and redirects home; a non-admin is logged with its profile and sent to access-denied (role user) or home, with the message and attempted URL |
| AdminGuard.AdminGuard | src/app/core/auth/admin.guard.ts:10-84 | the answer is that of the decision, and the log gains the entry exactly on a redirect |
| AccessGuard.GuestAttempt | src/app/core/auth/access.guard.ts:14-20 | the entry has user id -1, no email, role guest and the requested URL |
| AccessGuard.CanActivateAuth | src/app/core/auth/access.guard.ts:10-22 | allows iff signed in and then logs nothing; otherwise logs the guest attempt and redirects to /home |
| ImageService.Placeholder | src/app/core/images/image.service.ts:52-57 | small and large map to their placeholders, anything else to the medium one |
| ImageService.IsValidImageUrl | src/app/core/images/image.service.ts:67-96 | refuses empty, null and undefined strings and those starting with null or undefined; accepts inline data and asset URLs; otherwise accepts what the URL parser accepts or a relative path |
| ImageService.UnparsableNeedsPrefix | src/app/core/images/image.service.ts:87-95 | an accepted string the parser refuses is inline or starts with /, ./ or ../ |
| ImageService.FirstValid | src/app/core/images/image.service.ts:36-39 | none iff no entry is acceptable; otherwise the first acceptable entry |
| ImageService.Fallback | src/app/core/images/image.service.ts:31-33 | the placeholder for the size when placeholders are wanted, otherwise the empty string |
| ImageService.SafeImageUrl | src/app/core/images/image.service.ts:24-50 | a missing or empty URL gives the fallback; a list gives its first acceptable entry or the fallback; an inline URL is returned unchanged; any other string is returned unchanged when acceptable, else the fallback |
| ImageService.SafeImageUrlOrigin | src/app/core/images/image.service.ts:24-50 | the result is the input string, one of the list entries, a placeholder or the empty string, and is empty only when placeholders are off |
| ImageService.ImageAvailable | src/app/core/images/image.service.ts:99-116 | a refused URL is unavailable, an accepted asset is available, any other accepted URL is as reachable as the request says |
| HeaderSearch.LocalSearch | src/app/shared/common-ui/components-ui/header-search/header-search.component.ts:153-166 | the first matches in store order: a prefix of the matching products, ten long when there are more than ten, all of them otherwise; each a store product that matches |
| HeaderSearch.LocalSearchInOrder | src/app/shared/common-ui/components-ui/header-search/header-search.component.ts:153-166 | results keep store order; with at most 10 matches they are exactly the matches |
| HeaderSearch.TitleHitMatches | src/app/shared/common-ui/components-ui/header-search/header-search.component.ts:157-158 | a product whose lower-cased title equals the lower-cased, trimmed term matches |
| HeaderSearch.HeaderSearchComponent.constructor | src/app/shared/common-ui/components-ui/header-search/header-search.component.ts:108-111 | empty value, results hidden and empty, nothing searched |
| HeaderSearch.HeaderSearchComponent.OnSearchTermChange | src/app/shared/common-ui/components-ui/header-search/header-search.component.ts:130-141 | emits the term; results are shown and marked searched iff the term is longer than 2; a short term clears the results |
| HeaderSearch.HeaderSearchComponent.PerformSearch | src/app/shared/common-ui/components-ui/header-search/header-search.component.ts:143-151 | a term of at most 2 characters finds nothing, a longer one gives the local search result |
| HeaderSearch.HeaderSearchComponent.OnValueSettled | src/app/shared/common-ui/components-ui/header-search/header-search.component.ts:115-123 | the settled value is announced and searched; at most 10 results |
| HeaderSearch.HeaderSearchComponent.ClearSearch | src/app/shared/common-ui/components-ui/header-search/header-search.component.ts:189-195 | value empty, results hidden and cleared, not searched, and the empty term emitted |
| HeaderSearch.HeaderSearchComponent.SelectProduct | src/app/shared/common-ui/components-ui/header-search/header-search.component.ts:197-203 | emits the product, clears and hides the field and opens the product page |
| HeaderSearch.HeaderSearchComponent.ViewAllResults | src/app/shared/common-ui/components-ui/header-search/header-search.component.ts:205-213 | with a non-empty value hides results and opens the product list with the search; otherwise nothing |
| HeaderSearch.HeaderSearchComponent.OnFocus | src/app/shared/common-ui/components-ui/header-search/header-search.component.ts:215-219 | shows results again only for a value longer than 2 characters |
| HeaderSearch.HeaderSearchComponent.HideResults | src/app/shared/common-ui/components-ui/header-search/header-search.component.ts:228-230 | only hides the results |
| UsersListContainer.FilterUsers | src/app/modules/users/pages/users-list-container/users-list-container.component.ts:48-63 | a blank term keeps every user; otherwise exactly the users whose name, email or role contains the lower-cased term |
| UsersListContainer.FilterUsersLaws | src/app/modules/users/pages/users-list-container/users-list-container.component.ts:56-60 | the result keeps user order and filtering twice equals filtering once |
| UsersListContainer.EmptyUserOnlyForBlankTerm | src/app/modules/users/pages/users-list-container/users-list-container.component.ts:56-60 | a user missing all three fields is kept iff the term is blank |
| UsersListContainer.IsUserKey | src/app/modules/users/pages/users-list-container/users-list-container.component.ts:66-68 | accepts exactly the seven listed keys |
| UsersListContainer.UserKeysFacts | src/app/modules/users/pages/users-list-container/users-list-container.component.ts:66-68 | there are seven keys and password is not one of them |
| ProductsListContainer.SearchResultsCount | src/app/modules/products/pages/products-list-container/products-list-container.component.ts:68-71 | nothing iff the term is shorter than 2 characters, otherwise the number of store products |
| ProductsListContainer.CategoryToggle | src/app/modules/products/pages/products-list-container/products-list-container.component.ts:199-207 | clicking the id of the selected category (compared as strings) deselects; any other click selects the given number |
| ProductsListContainer.CategoryToggleLaws | src/app/modules/products/pages/products-list-container/products-list-container.component.ts:199-207 | the selected id deselects and any other id selects that number |
| ProductsListContainer.UrlQuery | src/app/modules/products/pages/products-list-container/products-list-container.component.ts:214-226 | search is the term or removed when empty; category is the selected id or removed |
| ProductsListContainer.UrlUpdate | src/app/modules/products/pages/products-list-container/products-list-container.component.ts:230-234 | stays on the page and merges the query |
| ProductsListContainer.ProductsListContainerComponent.constructor | src/app/modules/products/pages/products-list-container/products-list-container.component.ts:77-81 | empty search, no call, no navigation |
| ProductsListContainer.ProductsListContainerComponent.SetSearchFilter | src/app/modules/products/pages/products-list-container/products-list-container.component.ts:133-137 | stores the term and the URL follows |
| ProductsListContainer.ProductsListContainerComponent.OnSelectedCategoryChanged | src/app/modules/products/pages/products-list-container/products-list-container.component.ts:126-130 | the URL follows the new selected category |
| ProductsListContainer.ProductsListContainerComponent.InitializeFromQueryParams | src/app/modules/products/pages/products-list-container/products-list-container.component.ts:103-138 | the search query value becomes the term, a category query selects its number, a search query searches, and the URL is updated |
| ProductsListContainer.ProductsListContainerComponent.OnFilteredItems | src/app/modules/products/pages/products-list-container/products-list-container.component.ts:183-194 | stores the term; on products a non-empty term searches and an empty term clears the filters; on categories there is no call |
| ProductsListContainer.ProductsListContainerComponent.OnCategorySelect | src/app/modules/products/pages/products-list-container/products-list-container.component.ts:196-208 | selects the toggle of the clicked id against the store selection |
| ProductsListContainer.ProductsListContainerComponent.LoadMore | src/app/modules/products/pages/products-list-container/products-list-container.component.ts:175-180 | more pages are asked for only on the products view |
| ProductsListContainer.ProductsListContainerComponent.ClearAll | src/app/modules/products/pages/products-list-container/products-list-container.component.ts:238-241 | empties the term, the URL follows, and the service filters are cleared |
| HeaderNavbar.OnSearch | src/app/shared/common-ui/components-ui/header-navbar/header-navbar.component.ts:130-149 | a term longer than 2 searches and an empty one clears; terms of 1 or 2 characters only navigate; on a products URL the term, or its removal, is merged into the query; elsewhere a non-empty term opens /products with it |
| HeaderNavbar.ProductPage | src/app/shared/common-ui/components-ui/header-navbar/header-navbar.component.ts:152-155 | navigates to /products and the product id |
| HeaderNavbar.HeaderNavbarComponent.constructor | src/app/shared/common-ui/components-ui/header-navbar/header-navbar.component.ts:75 | the badge starts at 0 with no action |
| HeaderNavbar.HeaderNavbarComponent.OnCartCount | src/app/shared/common-ui/components-ui/header-navbar/header-navbar.component.ts:88-91 | the badge becomes the emitted count |
| HeaderNavbar.HeaderNavbarComponent.NgOnInit | src/app/shared/common-ui/components-ui/header-navbar/header-navbar.component.ts:83-92 | after subscribing the badge shows the cart total quantity |
| HeaderNavbar.HeaderNavbarComponent.Replay | src/app/shared/common-ui/components-ui/header-navbar/header-navbar.component.ts:88-91 | after a run of emitted counts the badge holds the last one |
| HeaderNavbar.HeaderNavbarComponent.Search | src/app/shared/common-ui/components-ui/header-navbar/header-navbar.component.ts:130-149 | records the actions of the search rule |
| HeaderNavbar.HeaderNavbarComponent.OnSearchProduct | src/app/shared/common-ui/components-ui/header-navbar/header-navbar.component.ts:152-155 | records the navigation to the product page |
| HeaderNavbar.HeaderNavbarComponent.GoToCart | src/app/shared/common-ui/components-ui/header-navbar/header-navbar.component.ts:125-127 | records the navigation to /cart |
| CartListContainer.Detail | src/app/modules/products/pages/cart-list-container/cart-list-container.component.ts:88-96 | the row keeps the entry id and quantity and the price; a missing title shows the unknown-product text and a missing image the placeholder; neither is empty |
| CartListContainer.Rows | src/app/modules/products/pages/cart-list-container/cart-list-container.component.ts:86-96 | never more rows than cart entries |
| CartListContainer.RowsAppend | src/app/modules/products/pages/cart-list-container/cart-list-container.component.ts:86-96 | the rows of two carts put together are the rows of each, put together, whatever mix of lookups succeeded |
| CartListContainer.RowsFound | src/app/modules/products/pages/cart-list-container/cart-list-container.component.ts:86-96 | one row per found product; every found product has its row; every row is the row of a found product |
| CartListContainer.RowsKeepCartOrder | src/app/modules/products/pages/cart-list-container/cart-list-container.component.ts:86-90 | the rows read back as entries are an order-preserving sub-list of the cart |
| CartListContainer.RowsAllFound | src/app/modules/products/pages/cart-list-container/cart-list-container.component.ts:86-96 | when every lookup succeeds there is one row per entry, position by position |
| CartListContainer.RowsNoneFound | src/app/modules/products/pages/cart-list-container/cart-list-container.component.ts:86-87 | when no lookup succeeds there are no rows |
| CartListContainer.SubtotalAppend | src/app/modules/products/pages/cart-list-container/cart-list-container.component.ts:110-113 | the subtotal of two row lists put together is the sum of their subtotals |
| CartListContainer.Shipping | src/app/modules/products/pages/cart-list-container/cart-list-container.component.ts:116 | 0 iff the subtotal is at least 1000, otherwise 100 |
| CartListContainer.CartListContainerComponent.constructor | src/app/modules/products/pages/cart-list-container/cart-list-container.component.ts:44-48 | no rows, loading, all totals 0, no notice |
| CartListContainer.CartListContainerComponent.CalculateTotals | src/app/modules/products/pages/cart-list-container/cart-list-container.component.ts:109-118 | the subtotal is the sum over the rows, shipping follows the free-shipping rule and the total is their sum |
| CartListContainer.CartListContainerComponent.LoadCartItems | src/app/modules/products/pages/cart-list-container/cart-list-container.component.ts:61-107 | an empty cart gives no rows, subtotal 0, shipping and total 100; found products give the rows with consistent totals; a failed join shows the load-error notice and keeps rows and totals; loading ends |
| CartList.Effective | src/app/shared/common-ui/components-ui/cart-list/cart-list.component.ts:64 | an unset or zero entry shows as 1, any other entry as itself |
| CartList.SetAllFacts | src/app/shared/common-ui/components-ui/cart-list/cart-list.component.ts:47-52 | every item gets an entry and ids not among the items keep what they had |
| CartList.SetAllDistinct | src/app/shared/common-ui/components-ui/cart-list/cart-list.component.ts:49-51 | with no repeated ids every entry is exactly its item quantity |
| CartList.FillMissingFacts | src/app/shared/common-ui/components-ui/cart-list/cart-list.component.ts:54-61 | every existing entry is kept, every item gets an entry, and nothing else is added |
| CartList.FillMissingPositive | src/app/shared/common-ui/components-ui/cart-list/cart-list.component.ts:54-61 | filling in from quantities of at least 1 keeps every entry at least 1 |
| CartList.EditsKeepPositive | src/app/shared/common-ui/components-ui/cart-list/cart-list.component.ts:63-89 | the plus, minus and typed edits keep every entry at least 1 |
| CartList.ItemTotal | src/app/shared/common-ui/components-ui/cart-list/cart-list.component.ts:106-108 | 0 for quantity 0, the price for quantity 1, at least the price for a non-negative price and positive quantity |
| CartList.CartListComponent.constructor | src/app/shared/common-ui/components-ui/cart-list/cart-list.component.ts:34-45 | the given items, no entries, nothing emitted |
| CartList.CartListComponent.NgOnInit | src/app/shared/common-ui/components-ui/cart-list/cart-list.component.ts:47-52 | the loop result is every item entry overwritten with its quantity |
| CartList.CartListComponent.NgOnChanges | src/app/shared/common-ui/components-ui/cart-list/cart-list.component.ts:54-61 | the loop result fills in only absent entries |
| CartList.CartListComponent.OnIncreaseQuantity | src/app/shared/common-ui/components-ui/cart-list/cart-list.component.ts:63-68 | the entry becomes the shown quantity plus one and exactly that is emitted |
| CartList.CartListComponent.OnDecreaseQuantity | src/app/shared/common-ui/components-ui/cart-list/cart-list.component.ts:70-77 | at a shown quantity of at most 1 nothing changes or is emitted; above it one less is stored and emitted |
| CartList.CartListComponent.OnQuantityChange | src/app/shared/common-ui/components-ui/cart-list/cart-list.component.ts:79-90 | only a parsed number of at least 1 is stored and emitted; anything else changes nothing |
| CartList.CartListComponent.OnRemove | src/app/shared/common-ui/components-ui/cart-list/cart-list.component.ts:92-96 | the removal is emitted only when confirmed |
| Theme.CookieGet | src/app/core/theme/theme.service.ts:24-26 | the saved value, or the empty string when there is none |
| Theme.IndexOf | src/app/core/theme/theme.service.ts:61 | -1 iff absent, otherwise the first position of the value |
| Theme.NextTheme | src/app/core/theme/theme.service.ts:58-64 | light to dark, dark to auto, auto to light, anything else to light; always a real theme |
| Theme.ToggleCycle | src/app/core/theme/theme.service.ts:58-64 | three toggles bring a real theme back; four bring any other value to light |
| Theme.ThemeClass | src/app/core/theme/theme.service.ts:49-55 | each theme gets its own body class |
| Theme.BodyWith | src/app/core/theme/theme.service.ts:47-56 | the theme class is on the body, every non-theme class stays, and nothing else is added |
| Theme.BodyHasOneThemeClass | src/app/core/theme/theme.service.ts:47-56 | after applying a real theme exactly one theme class is on the body, the one of that theme |
| Theme.Resolved | src/app/core/theme/theme.service.ts:71-79 | any theme but auto resolves to itself; auto resolves to dark iff the system prefers dark, else light |
| Theme.InitialTheme | src/app/core/theme/theme.service.ts:24-33 | the saved cookie when it is non-empty, otherwise auto |
| Theme.ThemeService.constructor | src/app/core/theme/theme.service.ts:16-33 | the initial theme is set, saved and applied to the body |
| Theme.ThemeService.SetTheme | src/app/core/theme/theme.service.ts:41-45 | the current theme becomes the theme, the cookie holds it and the body shows it |
| Theme.ThemeService.ApplyThemeToBody | src/app/core/theme/theme.service.ts:47-56 | only the body classes change, to those of the theme |
| Theme.ThemeService.ToggleTheme | src/app/core/theme/theme.service.ts:58-64 | the theme becomes the next one in the cycle, saved and applied |
| Theme.ThemeService.GetCurrentTheme | src/app/core/theme/theme.service.ts:66-68 | the current theme |
| Theme.ThemeService.GetResolvedTheme | src/app/core/theme/theme.service.ts:71-79 | the resolution of the current theme against the system preference |
| Theme.ThemeService.HandleSystemThemeChange | src/app/core/theme/theme.service.ts:35-39 | the body changes only when the theme is auto; theme and cookie stay |
| RouteService.RouteClass | src/app/core/routes/route.service.ts:38-52 | a dashboard URL always gets dashboard-route; home-route only for exactly /home or /; products before users; otherwise no class |
| RouteService.WithRouteClass | src/app/core/routes/route.service.ts:33-53 | other classes stay and the route classes present are exactly that of the URL |
| RouteService.AtMostOneRouteClass | src/app/core/routes/route.service.ts:38-52 | at most one route class is present, none for a URL outside the four sections |
| RouteService.NavigationUrl | src/app/core/routes/route.service.ts:23-25 | the URL after redirects, or the URL when that is empty |
| RouteService.RouteService.constructor | src/app/core/routes/route.service.ts:11-31 | tracking starts from the router URL and the root gets its class |
| RouteService.RouteService.UpdateRouteClass | src/app/core/routes/route.service.ts:33-53 | with no app root nothing changes; otherwise the root classes become those for the URL |
| RouteService.RouteService.OnNavigationEnd | src/app/core/routes/route.service.ts:19-31 | the current route becomes the navigation URL, is emitted, and the root class follows |
| RouteService.RouteService.GetCurrentRoute | src/app/core/routes/route.service.ts:55-57 | the current route |
| RouteService.RouteService.IsDashboard | src/app/core/routes/route.service.ts:59-65 | true iff the current route contains /dashboard |
| ProductForm.NumberOf | src/app/modules/dashboard/components/update-product/update-product-modal.component.ts:124-126 | a number is itself and an empty field is 0 |
| ProductForm.CategoryIdValidator | src/app/modules/dashboard/components/add-product/add-product-modal.component.ts:89-95 | accepts iff the value is present and lies in 1..1000 |
| ProductForm.FormValid | src/app/modules/dashboard/components/add-product/add-product-modal.component.ts:57-65 | valid iff the title has at least 2 characters, the price is at least 1, the description has at least 10 characters, the category id is valid and there is an image |
| ProductForm.AddImage | src/app/modules/dashboard/components/add-product/add-product-modal.component.ts:97-105 | an input whose trimmed form starts with http is appended trimmed, growing the list by one; anything else leaves the list unchanged |
| ProductForm.RemoveAt | src/app/modules/dashboard/components/add-product/add-product-modal.component.ts:107-110 | an index in range removes exactly that entry and keeps the order of the rest; an index past the end changes nothing |
| ProductForm.RemoveUndoesAdd | src/app/modules/dashboard/components/add-product/add-product-modal.component.ts:97-110 | removing the entry just added gives the old list back |
| ProductForm.AddKeepsWebImages | src/app/modules/dashboard/components/add-product/add-product-modal.component.ts:97-110 | adding keeps every entry a trimmed, non-empty http URL |
| ProductForm.RemoveKeepsWebImages | src/app/modules/dashboard/components/add-product/add-product-modal.component.ts:97-110 | removing keeps every entry a trimmed, non-empty http URL |
| ProductForm.RequestBody | src/app/modules/dashboard/components/update-product/update-product-modal.component.ts:121-128 | the request carries the form title, description and images unchanged, with the numeric price and category id; a valid form gives a price of at least 1 and a category id in 1..1000 |
| ProductForm.FormOf | src/app/modules/dashboard/components/update-product/update-product-modal.component.ts:74-87 | the form holds the product title, price, description, category id and images in order |
| ProductForm.LoadedFormRoundTrip | src/app/modules/dashboard/components/update-product/update-product-modal.component.ts:74-128 | sending a loaded, unedited form sends the product own values; it is valid iff the product meets the rules |
| ProductForm.EmptyFormInvalid | src/app/modules/dashboard/components/add-product/add-product-modal.component.ts:57-65 | the empty form is not valid |
| AddProductModal.AddProductModalComponent.constructor | src/app/modules/dashboard/components/add-product/add-product-modal.component.ts:57-65 | an empty form, nothing touched, loading or sent |
| AddProductModal.AddProductModalComponent.LoadCategories | src/app/modules/dashboard/components/add-product/add-product-modal.component.ts:71-83 | loaded categories are stored; a failure shows a message |
| AddProductModal.AddProductModalComponent.Edit | src/app/modules/dashboard/components/add-product/add-product-modal.component.ts:58-62 | the typed values replace the fields and the images stay |
| AddProductModal.AddProductModalComponent.AddImageUrl | src/app/modules/dashboard/components/add-product/add-product-modal.component.ts:97-105 | the list gets the image rule result; an accepted input empties the field and marks the images touched |
| AddProductModal.AddProductModalComponent.RemoveImage | src/app/modules/dashboard/components/add-product/add-product-modal.component.ts:107-110 | the list loses the entry at the index |
| AddProductModal.AddProductModalComponent.OnSubmit | src/app/modules/dashboard/components/add-product/add-product-modal.component.ts:112-136 | a request is sent iff the form is valid, carrying the request body; an invalid form is marked touched, shows a message and sends nothing |
| AddProductModal.AddProductModalComponent.OnCreateResult | src/app/modules/dashboard/components/add-product/add-product-modal.component.ts:122-135 | loading ends; success closes the dialog with success, failure shows a message |
| AddProductModal.AddProductModalComponent.OnCancel | src/app/modules/dashboard/components/add-product/add-product-modal.component.ts:138-140 | the dialog closes without a result |
| UpdateProductModal.UpdateProductModalComponent.constructor | src/app/modules/dashboard/components/update-product/update-product-modal.component.ts:47-57 | the product to edit, an empty form, nothing sent |
| UpdateProductModal.UpdateProductModalComponent.NgOnInit | src/app/modules/dashboard/components/update-product/update-product-modal.component.ts:59-72 | the categories are stored or a message shown, and the form holds the product |
| UpdateProductModal.UpdateProductModalComponent.LoadProductData | src/app/modules/dashboard/components/update-product/update-product-modal.component.ts:74-87 | the loop rebuilds the image list so the form holds the product exactly |
| UpdateProductModal.UpdateProductModalComponent.AddImageUrl | src/app/modules/dashboard/components/update-product/update-product-modal.component.ts:101-108 | the list gets the image rule result; an accepted input empties the field |
| UpdateProductModal.UpdateProductModalComponent.RemoveImage | src/app/modules/dashboard/components/update-product/update-product-modal.component.ts:110-112 | the list loses the entry at the index |
| UpdateProductModal.UpdateProductModalComponent.OnSubmit | src/app/modules/dashboard/components/update-product/update-product-modal.component.ts:114-141 | a request for the product id is sent iff the form is valid, carrying the request body; an invalid form is marked touched and sends nothing |
| UpdateProductModal.UpdateProductModalComponent.OnUpdateResult | src/app/modules/dashboard/components/update-product/update-product-modal.component.ts:130-140 | loading ends; success closes with success, failure shows a message |
| UpdateProductModal.UpdateProductModalComponent.OnCancel | src/app/modules/dashboard/components/update-product/update-product-modal.component.ts:143-145 | the dialog closes without a result |
| SafeImage.ExternalIffNoLocalPrefix | src/app/shared/common-ui/components-ui/safe-image/safe-image.component.ts:80-84 | a URL is external exactly when it starts with none of data:image, assets/ and blob: |
| SafeImage.Fail | src/app/shared/common-ui/components-ui/safe-image/safe-image.component.ts:115-120 | error shown, loading over, the error image displayed and reported |
| SafeImage.LoadAsWritten | src/app/shared/common-ui/components-ui/safe-image/safe-image.component.ts:59-78 | the URL as written: an external URL starts a new probe; a local one is shown at once but the old probe stays live |
| SafeImage.Load | src/app/shared/common-ui/components-ui/safe-image/safe-image.component.ts:59-78 | the intended load: shows the URL with no error; an external URL starts a fresh probe, a local one drops every probe |
| SafeImage.LoadsDifferOnlyInElement | src/app/shared/common-ui/components-ui/safe-image/safe-image.component.ts:67-78 | the two loads agree except that the local branch drops the probe |
| SafeImage.ElementLoaded | src/app/shared/common-ui/components-ui/safe-image/safe-image.component.ts:90-96 | a superseded probe changes nothing; the current one ends loading and reports the URL |
| SafeImage.ElementFailed | src/app/shared/common-ui/components-ui/safe-image/safe-image.component.ts:98-102 | a superseded probe changes nothing; the current one shows the error |
| SafeImage.TimedOut | src/app/shared/common-ui/components-ui/safe-image/safe-image.component.ts:107-112 | the timeout shows the error only for the current probe while still loading |
| SafeImage.ShownLoaded | src/app/shared/common-ui/components-ui/safe-image/safe-image.component.ts:122-128 | the displayed image loading counts only for an external image |
| SafeImage.ShownFailed | src/app/shared/common-ui/components-ui/safe-image/safe-image.component.ts:130-134 | the displayed image failing shows the error only for an external image |
| SafeImage.StepsKeepInvariants | src/app/shared/common-ui/components-ui/safe-image/safe-image.component.ts:59-134 | every step keeps probes numbered below the counter and an error state displaying the error image |
| SafeImage.LoadSupersedesEarlierElements | src/app/shared/common-ui/components-ui/safe-image/safe-image.component.ts:91 | after a load no earlier probe callback changes anything |
| SafeImage.LoadAsWrittenKeepsStaleProbe | src/app/shared/common-ui/components-ui/safe-image/safe-image.component.ts:67-78 | as written, an external load followed by a local one lets the first probe error replace the local image with the error image |
| SafeImage.SafeImageComponent.constructor | src/app/shared/common-ui/components-ui/safe-image/safe-image.component.ts:35-43 | loading, no error, nothing displayed yet |
| SafeImage.SafeImageComponent.LoadImage | src/app/shared/common-ui/components-ui/safe-image/safe-image.component.ts:59-67 | the view becomes the load of the safe URL for the source, with the placeholder turned on |
| SafeImage.SafeImageComponent.Show | src/app/shared/common-ui/components-ui/safe-image/safe-image.component.ts:60-77 | loading starts and the URL is shown; an external URL gets a fresh probe element, a local one ends loading and drops the earlier probe |
| SafeImage.SafeImageComponent.NgOnInit | src/app/shared/common-ui/components-ui/safe-image/safe-image.component.ts:46-57 | sets the loading and error images, then loads |
| SafeImage.SafeImageComponent.OnSrcChange | src/app/shared/common-ui/components-ui/safe-image/safe-image.component.ts:53-57 | takes the new source and reloads except on the first change |
| SafeImage.SafeImageComponent.HandleError | src/app/shared/common-ui/components-ui/safe-image/safe-image.component.ts:115-120 | the view becomes the error view |
| SafeImage.SafeImageComponent.OnElementLoad | src/app/shared/common-ui/components-ui/safe-image/safe-image.component.ts:90-96 | the view follows the probe load rule |
| SafeImage.SafeImageComponent.OnElementError | src/app/shared/common-ui/components-ui/safe-image/safe-image.component.ts:98-102 | the view follows the probe error rule |
| SafeImage.SafeImageComponent.OnTimeout | src/app/shared/common-ui/components-ui/safe-image/safe-image.component.ts:107-112 | the view follows the timeout rule |
| SafeImage.SafeImageComponent.OnImageLoad | src/app/shared/common-ui/components-ui/safe-image/safe-image.component.ts:122-128 | the view follows the displayed-image load rule |
| SafeImage.SafeImageComponent.OnImageError | src/app/shared/common-ui/components-ui/safe-image/safe-image.component.ts:130-134 | the view follows the displayed-image error rule |
| SafeImage.SafeImageComponent.GetLoadingAttr | src/app/shared/common-ui/components-ui/safe-image/safe-image.component.ts:136-138 | lazy iff lazy loading is asked for, otherwise eager |

## Left out

- RxJS stream mechanics are not modelled, because they are scheduling rather than logic. This covers `debounceTime`, `distinctUntilChanged`, `switchMap`, `forkJoin`, `BehaviorSubject` replay and unsubscription. Each subscription callback is a method, and each published value is appended to a `seq` field.
- Timers are not modelled: the 10-second image timeout, the 60-second initialization timeout, the blur delay and the virtual-scroll setup delay. The image timeout becomes a callback method, `SafeImage.SafeImageComponent.OnTimeout`.
- DOM access, scroll geometry, the scroll position save and restore, `markForCheck`, console output and snackbar durations have no effect on the modelled state.
- Browser storage and the cookie library are plain fields. JSON (de)serialisation of the stored cart is not modelled, and an unreadable store is the empty cart.
- Prices, quantities and ids are integers. Floating-point prices, fractional category ids and `NaN` are not covered. `Number(...)`, unary `+` and `parseInt` are modelled as `Option<int>` values supplied by the caller.
- `new URL(...)` is the parameter `parses`, and `fetch` reachability is the parameter `reachable`.
- The products coordinator service (`searchProducts`, `selectCategoryById`, `loadMoreProducts`, `clearAllFilters`) is not part of this model. The product list page only records which of its operations it calls.
- The HTTP orchestration of the restore is not modelled. This covers deleting every category and product, `forkJoin` over the creations, `loadBackupData` with its fallback data, and the `Initialization failed` catch. Their results are parameters of `DataInitialization.Restore`, `DataInitialization.Outcome` and `DataInitialization.CreateCategoryMapping`.
- `auth.service.ts` and `auth.interceptor.ts` are not part of this model: the first is cookie and HTTP plumbing, the second is concurrency between in-flight requests. The purely presentational components and `app.routes.ts` are not part of it either. Nor is `dashboard-products.component.ts.ts`, a stale duplicate of the dashboard page.
- Dates are not modelled: the cart's `addedAt`, the log `timestamp`, `formatLogEntry` and `toLocaleString`.
- `getProductImage` of the header search is not modelled (JSON parsing of a string image field), nor is `getStyleObject` of the safe image.
- `Text.Lower` folds only the capitals of Basic Latin, Latin-1 (`À` to `Þ`, without `×`) and Cyrillic (`Ѐ` to `Я`), and leaves every other character as it is. JavaScript's `toLowerCase` also folds Greek (with its context-dependent final sigma), Latin Extended, Armenian and other scripts, and turns `İ` into two characters. Case-insensitive search and the name and title comparisons of the restore are therefore exact only for text in the folded alphabets.
- String lengths are counted in Unicode characters (`|s|`), while JavaScript's `.length` counts UTF-16 code units. The two differ only for characters outside the Basic Multilingual Plane, such as emoji, which count once here and twice in the source. This affects the minimum lengths of `ProductForm.FormValid` and the two-character search gates of `HeaderSearch` and `ProductsListContainer.SearchResultsCount`.
- `Store.Publish`: `updateState` decides whether the state changed by comparing `JSON.stringify` of the old and new state; the model compares the two records as values. They disagree only where serialisation hides a difference: a field set to `undefined` and a missing field, or `NaN` and `null`. The model's records have neither.
- Snackbar actions ('Close', 'OK'), durations, panel classes and positions are not modelled; only the message text is recorded.
- `ImageService.ImageAvailable`: the asynchronous `fetch` is replaced by the boolean `reachable`.
- `HeaderSearch.LocalSearch`: the optional description and category are treated as present (an empty string stands for a missing one). `price.toString()` is the decimal rendering of an integer price.
- `ProductForm.RemoveAt`: the index is a `nat`. `FormArray.removeAt` with a negative index, which counts from the end, is not modelled.
- `AddProductModal.AddProductModalComponent.OnSubmit`: the create dialog sends the raw form value, while the model sends the same `ProductForm.RequestBody` the update dialog builds. The two agree whenever the numeric fields hold numbers.
- `CartList.CartListComponent.OnQuantityChange`: writing the previous value back into the input element on a refused entry is DOM state that is not modelled.
- `DashboardProducts.DashboardProductsComponent.DeleteProduct`: a delete shortens the list without moving the page counter, so the `Contiguous` invariant is not claimed after it; the source does not keep it either.
- `Theme.ThemeService.SetTheme`: any string is accepted as a theme, as the cookie can hold any string. The `Theme` type union of the source is not enforced.

## Findings

| source | as written | input that shows it | evidently intended | confidence | as-written member | corrected member |
|---|---|---|---|---|---|---|
| src/app/modules/products/services/data-services/data-initialization.service.ts:271-281 | the i-th backup category is paired with the i-th *successful* creation, because `filter(Boolean)` drops the failures before indexing | backup categories with ids 1, 2, 3 whose creations return new ids 11, failure, 13: "2" maps to 13 and "3" is unmapped, so products of category 2 are recreated under category 3 | each backup category is paired with its own creation result, and failures are left unmapped | not executed | DataInitialization.MappingAsWrittenMisaligns | DataInitialization.CategoryMappingAligned |
| src/app/shared/common-ui/components-ui/safe-image/safe-image.component.ts:67-78 | a load of a local (data, asset or blob) URL does not reset `imageElement`, so a still-pending external probe stays current | `src` changes from `http://a/b` to `assets/b` before the first probe answers; the probe's `onerror` then replaces `assets/b` with the error image | every load supersedes the probes of earlier loads | not executed | SafeImage.LoadAsWrittenKeepsStaleProbe | SafeImage.LoadSupersedesEarlierElements |

The model uses the corrected behaviour. `DataInitialization.Restore` counts the keys of `DataInitialization.CategoryMapping`. `SafeImage.SafeImageComponent.LoadImage` applies `SafeImage.Load`. The code as written remains available as `DataInitialization.MappingAsWritten`, which `DataInitialization.CreateCategoryMapping` builds, and as `SafeImage.LoadAsWritten`.
