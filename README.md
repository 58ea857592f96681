# Sneaker storefront: a verified model of its state and list logic

This project models the parts of a React sneaker storefront that are logic, not
rendering. It covers:

- the shopping-cart store: adding, removing, setting quantities, clearing, and counting units;
- the catalog page's five-clause filter and four-key sort;
- the filter sidebar's selection handlers;
- the admin category store and the category editor's adding/editing/draft state machine;
- the role-dependent side navigation and its expand/collapse list;
- the product card's availability mappings and add button;
- the built-in six-product catalog, with its category and brand options.

Each source file is one Dafny module:

| module | file | source |
|---|---|---|
| `Wrappers` | `wrappers.dfy` | optional values (`undefined`/`null`) |
| `Types` | `types.dfy` | `src/types/index.ts` |
| `Selection` | `selection.dfy` | the toggle rule shared by the sidebar and the navigation |
| `Cart` | `cart.dfy` | `src/hooks/useCart.ts` |
| `CatalogView` | `catalog_view.dfy` | `src/pages/Index.tsx` |
| `FilterSidebar` | `filter_sidebar.dfy` | `src/components/Filters/FilterSidebar.tsx` |
| `Categories` | `categories.dfy` | `src/hooks/useCategories.ts` |
| `CatalogData` | `mock_products.dfy` | `src/data/mockProducts.ts` |
| `CatalogChecks` | `catalog_checks.dfy` | facts about the built-in catalog |
| `CategoryManager` | `category_manager.dfy` | `src/components/Admin/CategoryManager.tsx` |
| `Navigation` | `navigation.dfy` | `src/components/Navigation/MainNavigation.tsx` |
| `ProductCard` | `product_card.dfy` | `src/components/Products/ProductCard.tsx` |

Representation choices:

- Money is in integer cents, so 129.99 is `12999`. The default price range [0, 2000] euros is `[0, MaxPrice]`, where `MaxPrice = 200000`.
- Ratings are in integer tenths, so 4.8 is `48`.
- Stores whose state the source replaces are classes: the cart, the categories, the category editor, the navigation and the product card. Their methods reassign the fields, and their `ensures` state the whole new state.
- The list transformations those methods use are pure functions, and they carry the lemmas.
- Handlers that only build a new value are functions: the filter sidebar, the filter predicate and the sort.
- A callback the source invokes is part of the result:
  - the category editor's handlers return a `Callback` value;
  - the navigation's click returns the entry to navigate to.

## Model

| member | source | states |
|---|---|---|
| Cart.Increase | src/hooks/useCart.ts:35-39 | Same length; every line of the product gains `q` units, every other line is unchanged |
| Cart.SetQuantity | src/hooks/useCart.ts:74-78 | Same length; every line of the product gets quantity `q`, every other line is unchanged |
| Cart.SubtotalConcat | src/hooks/useCart.ts:44 | The subtotal (sum of price × quantity) of two joined lists is the sum of their subtotals |
| Cart.ItemCountConcat | src/hooks/useCart.ts:98-100 | The unit count of two joined lists is the sum of their counts |
| Cart.ItemCountAtLeastLines | src/hooks/useCart.ts:98-100 | With all quantities ≥ 1, the unit count is at least the number of lines, and strictly more once some line holds 2+ units |
| Cart.SubtotalIncrease | src/hooks/useCart.ts:35-44 | Growing the product's lines by `q` raises the subtotal by `q` times the sum of the prices stored on those lines, whatever they are |
| Cart.CountDistinct | src/hooks/useCart.ts:31 | Under distinct ids a product occupies exactly one line when present and none when absent |
| Cart.AddSubtotalPresent | src/hooks/useCart.ts:29-50 | Under distinct ids, adding `q` units of a product already in the cart raises the subtotal by `q` × the price stored on its line, not the price of the product passed in |
| Cart.AddSubtotalAbsent | src/hooks/useCart.ts:29-50 | Adding `q` units of a product not yet in the cart raises the subtotal by its price × `q` |
| Cart.AddPresent | src/hooks/useCart.ts:31-39 | Adding a present product keeps line count and order; it grows only that product's line by `q` |
| Cart.AddAbsent | src/hooks/useCart.ts:40-42 | Adding an absent product appends exactly one line `(product, q)` at the end and keeps the earlier lines |
| Cart.AddKeepsDistinct | src/hooks/useCart.ts:31-42 | Adding keeps product ids pairwise distinct |
| Cart.AddKeepsPositive | src/hooks/useCart.ts:29-42 | With all quantities ≥ 1 and `q` ≥ 1, all quantities stay ≥ 1 after an add |
| Cart.AddItemCount | src/hooks/useCart.ts:29-42 | Under distinct ids, adding `q` units raises the unit count by exactly `q` |
| Cart.IncreaseItemCount | src/hooks/useCart.ts:35-39 | Growing the product's lines by `q` raises the unit count by `q` per matching line |
| Cart.AddTwice | src/hooks/useCart.ts:29-42 | Adding an absent product twice yields one line with the summed quantity, never two lines |
| Cart.RemoveMembership | src/hooks/useCart.ts:56 | After a remove no line has that id, and exactly the other lines remain |
| Cart.RemoveConcat | src/hooks/useCart.ts:56 | Removing distributes over concatenation, so the remaining lines keep their order |
| Cart.RemoveAbsent | src/hooks/useCart.ts:56 | Removing an absent id leaves the lines unchanged |
| Cart.RemoveLine | src/hooks/useCart.ts:56 | Under distinct ids, removing line k's product deletes exactly line k |
| Cart.RemoveKeepsDistinct | src/hooks/useCart.ts:56 | Removing keeps product ids pairwise distinct |
| Cart.RemoveKeepsPositive | src/hooks/useCart.ts:56 | Removing keeps every quantity ≥ 1 |
| Cart.RemoveSubtotal | src/hooks/useCart.ts:56-57 | Under distinct ids, removing line k lowers the subtotal by exactly that line's price × quantity |
| Cart.UpdateNonPositiveIsRemove | src/hooks/useCart.ts:67-71 | Setting a quantity ≤ 0 is exactly a removal |
| Cart.UpdatePositive | src/hooks/useCart.ts:73-78 | A positive quantity replaces the matching lines' quantity only, keeping line count and order |
| Cart.UpdateAbsent | src/hooks/useCart.ts:67-78 | Updating an absent id leaves the lines unchanged, whatever the quantity |
| Cart.UpdateKeepsDistinct | src/hooks/useCart.ts:67-78 | Updating keeps product ids pairwise distinct |
| Cart.UpdateKeepsPositive | src/hooks/useCart.ts:67-78 | Updating keeps every quantity ≥ 1, because a request ≤ 0 removes the line instead |
| Cart.CartStore.constructor | src/hooks/useCart.ts:5-9 | The cart starts with no lines and zero subtotal and total |
| Cart.CartStore.Restore | src/hooks/useCart.ts:12-22 | A parsed snapshot replaces the whole cart unchecked; a missing or unparseable one keeps the current cart |
| Cart.CartStore.SetLines | src/hooks/useCart.ts:44-50 | New lines come with subtotal = Σ price × quantity, total = subtotal and no tax |
| Cart.CartStore.AddToCart | src/hooks/useCart.ts:29-52 | Lines become the add of `quantity` units, and the totals agree with them. Distinct ids are preserved, and positive quantities are preserved when `quantity` ≥ 1 |
| Cart.CartStore.RemoveFromCart | src/hooks/useCart.ts:54-65 | Lines lose every line of the id, and the totals agree with them. Distinct ids and positive quantities are preserved |
| Cart.CartStore.UpdateQuantity | src/hooks/useCart.ts:67-88 | A quantity ≤ 0 goes through removal; otherwise the matching lines get the new quantity. The totals agree with the lines, and the invariants are preserved |
| Cart.CartStore.ClearCart | src/hooks/useCart.ts:90-96 | No lines, and zero subtotal and total |
| Cart.CartStore.GetItemCount | src/hooks/useCart.ts:98-100 | The sum of quantities, which is at least the number of lines when every quantity is ≥ 1 |
| CatalogView.IncludesSlice | src/pages/Index.tsx:36-38 | Every contiguous run of a string is found by the substring test |
| CatalogView.IncludesIffOccurs | src/pages/Index.tsx:36-38 | The substring test succeeds exactly when the needle sits at some position of the haystack |
| CatalogView.SearchFindsNameFragment | src/pages/Index.tsx:36-38 | Any query whose ASCII lower-cased form is a fragment of the lower-cased name makes the search clause pass |
| CatalogView.SearchSpec | src/pages/Index.tsx:36-38 | A product passes the search exactly when the query is empty or, lower-cased, sits at some position of its lower-cased name, brand or category |
| CatalogView.FilterProducts | src/pages/Index.tsx:34-63 | The result is no longer than the catalog, and every product in it passes all five clauses |
| CatalogView.FilterCount | src/pages/Index.tsx:34-63 | Each passing product is kept as often as the catalog holds it; every other product is dropped |
| CatalogView.FilterMembership | src/pages/Index.tsx:34-63 | A product is in the result iff it is in the catalog and passes search, category, brand, price and availability |
| CatalogView.FilterConcat | src/pages/Index.tsx:34 | Filtering distributes over concatenation, so kept products stay in catalog order |
| CatalogView.FilterAllPass | src/pages/Index.tsx:34-63 | When every product passes, the filter returns the catalog unchanged |
| CatalogView.KeyOf | src/pages/Index.tsx:67-76 | "price-low", "price-high" and "rating" select their keys (iff); any other value falls back to name order |
| CatalogView.NameLeqTotal | src/pages/Index.tsx:76 | Name order is total |
| CatalogView.NameLeqTransitive | src/pages/Index.tsx:76 | Name order is transitive |
| CatalogView.InOrderTotal | src/pages/Index.tsx:66-78 | For every key, any two products can be ordered |
| CatalogView.InOrderTransitive | src/pages/Index.tsx:66-78 | For every key, the comparator's order is transitive |
| CatalogView.FirstPrecedesRest | src/pages/Index.tsx:66-78 | In a sorted list the first product may precede every other one |
| CatalogView.SortedCons | src/pages/Index.tsx:66-78 | A product that may precede every element of a sorted list keeps it sorted when put in front |
| CatalogView.Insert | src/pages/Index.tsx:66-78 | Inserting into a sorted list gives a sorted list holding one more copy of the product |
| CatalogView.SortProducts | src/pages/Index.tsx:66-78 | The sort returns a permutation of its input, ordered under the key |
| CatalogView.ReverseSorted | src/pages/Index.tsx:68-71 | A list in descending price order, read backwards, is in ascending price order |
| CatalogView.AscendingPriceOrderUnique | src/pages/Index.tsx:68-69 | Without price ties, two ascending price orders of the same products are the same list |
| CatalogView.PriceHighReversesPriceLow | src/pages/Index.tsx:68-71 | When no two different products share a price, the "price-high" result is the "price-low" result read backwards |
| CatalogView.VisibleSpec | src/pages/Index.tsx:33-81 | The page shows a permutation of exactly the passing catalog products, at most the catalog's length. Order per key: prices non-decreasing (price-low) or non-increasing (price-high); ratings non-increasing with a missing rating as 0 (rating); names ascending (anything else) |
| CatalogView.InitialFiltersAdmit | src/pages/Index.tsx:18-23 | With no search text and the initial selection, every product priced within [0, 2000] passes |
| FilterSidebar.HandleCategoryChange | src/components/Filters/FilterSidebar.tsx:39-48 | The category flips membership, no other category moves in or out, and the other facets are carried over |
| FilterSidebar.HandleBrandChange | src/components/Filters/FilterSidebar.tsx:50-59 | The brand flips membership, no other brand moves in or out, and the other facets are carried over |
| FilterSidebar.HandleAvailabilityChange | src/components/Filters/FilterSidebar.tsx:68-77 | The state flips membership, no other state moves in or out, and the other facets are carried over |
| FilterSidebar.CategoryToggleTwice | src/components/Filters/FilterSidebar.tsx:39-48 | Checking then unchecking an absent category restores the selection |
| FilterSidebar.BrandToggleTwice | src/components/Filters/FilterSidebar.tsx:50-59 | Checking then unchecking an absent brand restores the selection |
| FilterSidebar.AvailabilityToggleTwice | src/components/Filters/FilterSidebar.tsx:68-77 | Checking then unchecking an absent state restores the selection |
| FilterSidebar.CategoryUncheck | src/components/Filters/FilterSidebar.tsx:40-41 | Unchecking removes every occurrence and keeps the rest in order |
| FilterSidebar.CategoryCheck | src/components/Filters/FilterSidebar.tsx:40-42 | Checking an absent category appends it at the end |
| FilterSidebar.BrandUncheck | src/components/Filters/FilterSidebar.tsx:51-52 | Unchecking removes every occurrence and keeps the rest in order |
| FilterSidebar.BrandCheck | src/components/Filters/FilterSidebar.tsx:51-53 | Checking an absent brand appends it at the end |
| FilterSidebar.AvailabilityUncheck | src/components/Filters/FilterSidebar.tsx:69-70 | Unchecking removes every occurrence and keeps the rest in order |
| FilterSidebar.AvailabilityCheck | src/components/Filters/FilterSidebar.tsx:69-71 | Checking an absent state appends it at the end |
| FilterSidebar.PriceChangeSetsRange | src/components/Filters/FilterSidebar.tsx:61-66 | The range becomes exactly (min, max), unchecked; the other facets are carried over |
| FilterSidebar.ClearedIsInactive | src/components/Filters/FilterSidebar.tsx:79-86 | "Clear all" reports no active filter and equals the page's initial selection |
| FilterSidebar.HasActiveFiltersMeansSomethingHidden | src/components/Filters/FilterSidebar.tsx:94-98 | Active filters are reported iff the facets would hide some product priced within [0, 2000] |
| Selection.WithoutMembership | src/components/Filters/FilterSidebar.tsx:41 | Removing a value keeps exactly the other values |
| Selection.WithoutConcat | src/components/Filters/FilterSidebar.tsx:41 | Removing distributes over concatenation, so the rest keeps its order |
| Selection.WithoutAbsent | src/components/Filters/FilterSidebar.tsx:41 | Removing an absent value changes nothing |
| Selection.ToggleMembership | src/components/Filters/FilterSidebar.tsx:40-42 | After a toggle the value is present iff it was absent; no other value moves |
| Selection.ToggleTwice | src/components/Navigation/MainNavigation.tsx:76-82 | Toggling an absent value twice gives back the original list |
| Categories.EditAll | src/hooks/useCategories.ts:46-52 | Same length and order; matching entries get the update merged in, others unchanged |
| Categories.MergeOverwritesPresentFields | src/hooks/useCategories.ts:49 | A merge overwrites exactly the fields the update carries |
| Categories.EditAbsent | src/hooks/useCategories.ts:46-52 | Editing an absent id changes nothing |
| Categories.DeleteMembership | src/hooks/useCategories.ts:54-56 | After a delete no entry has the id, and exactly the other entries remain |
| Categories.DeleteConcat | src/hooks/useCategories.ts:55 | Deleting distributes over concatenation, so the remaining entries keep their order |
| Categories.DeleteAbsent | src/hooks/useCategories.ts:54-56 | Deleting an absent id changes nothing |
| Categories.ActiveMembership | src/hooks/useCategories.ts:58-60 | The active view holds exactly the active entries |
| Categories.ActiveConcat | src/hooks/useCategories.ts:59 | The active view distributes over concatenation, so it keeps the original order |
| Categories.ActiveAfterDelete | src/hooks/useCategories.ts:54-60 | Deleting then taking the active view equals taking the view then deleting |
| Categories.CategoryStore.constructor | src/hooks/useCategories.ts:11-18 | The store starts with one active category, id "1", named "Zapatillas" |
| Categories.CategoryStore.Restore | src/hooks/useCategories.ts:21-31 | A parsed list replaces the categories; a missing or unparseable one keeps them |
| Categories.CategoryStore.AddCategory | src/hooks/useCategories.ts:38-44 | Appends exactly one entry with the given fields and the new id; existing entries are unchanged |
| Categories.CategoryStore.EditCategory | src/hooks/useCategories.ts:46-52 | Length kept; entries with other ids unchanged; matching entries merged |
| Categories.CategoryStore.DeleteCategory | src/hooks/useCategories.ts:54-56 | Exactly the entries with other ids remain, in order |
| Categories.CategoryStore.GetActiveCategories | src/hooks/useCategories.ts:58-60 | Exactly the active categories |
| CatalogData.FirstIndex | src/data/mockProducts.ts:110-111 | The position of a value's first occurrence |
| CatalogData.Categories | src/data/mockProducts.ts:110 | No duplicates; a value is listed iff some catalog product has that category |
| CatalogData.Brands | src/data/mockProducts.ts:111 | No duplicates; a value is listed iff some catalog product has that brand |
| CatalogData.FirstIndexPrefix | src/data/mockProducts.ts:110-111 | A value's first occurrence in a prefix is its first occurrence in the whole list |
| CatalogData.DedupeSpec | src/data/mockProducts.ts:110-111 | The dedupe keeps exactly the list's values, each once, in first-occurrence order |
| CatalogChecks.CatalogBrands | src/data/mockProducts.ts:9-108 | The catalog's brands in order are Nike, Nike, Converse, Jordan, Clarks, Adidas |
| CatalogChecks.CatalogCategories | src/data/mockProducts.ts:9-108 | Every catalog product is in category Zapatillas |
| CatalogChecks.DedupeBrands | src/data/mockProducts.ts:111 | Deduplicating the catalog brands drops only the second Nike |
| CatalogChecks.DedupeCategories | src/data/mockProducts.ts:110 | Deduplicating six equal categories leaves one |
| CatalogChecks.BrandOptions | src/data/mockProducts.ts:111 | The brand options are Nike, Converse, Jordan, Clarks, Adidas |
| CatalogChecks.CategoryOptions | src/data/mockProducts.ts:110 | The category options are just Zapatillas |
| CatalogChecks.CatalogIdsDistinct | src/data/mockProducts.ts:9-108 | Catalog product ids are pairwise distinct |
| CatalogChecks.CatalogPricesInDefaultRange | src/data/mockProducts.ts:9-108 | Every catalog price lies in [0, 2000] euros |
| CatalogChecks.DiscountedHaveHigherOriginalPrice | src/data/mockProducts.ts:9-108 | Every discounted product has an original price above its price |
| CatalogChecks.InitialViewShowsWholeCatalog | src/pages/Index.tsx:18-63 | With no search text and the initial selection, the filter keeps the whole catalog in order |
| CatalogChecks.PriceRangeExample | src/pages/Index.tsx:53 | A [100, 150] euro range keeps products 1, 5 and 6, in catalog order |
| CategoryManager.TrimStart | src/components/Admin/CategoryManager.tsx:33 | A suffix of the input that does not start with white space, and every dropped character is white space |
| CategoryManager.TrimEnd | src/components/Admin/CategoryManager.tsx:33 | A prefix of the input that does not end with white space, and every dropped character is white space |
| CategoryManager.TrimStartEmpty | src/components/Admin/CategoryManager.tsx:33 | Trimming the start leaves nothing iff every character is white space |
| CategoryManager.TrimEndKeepsStart | src/components/Admin/CategoryManager.tsx:33 | Trimming the end of a string that starts with a non-space leaves something |
| CategoryManager.BlankMeansAllWhiteSpace | src/components/Admin/CategoryManager.tsx:33-50 | A name is blank after trimming iff every character is white space |
| CategoryManager.EditRoundTrip | src/components/Admin/CategoryManager.tsx:40-55 | Saving an untouched edit writes back id, name, flag and description; a missing description becomes "" |
| CategoryManager.Editor.constructor | src/components/Admin/CategoryManager.tsx:24-30 | Starts not adding, with no edited id and the draft ("", "", active) |
| CategoryManager.Editor.ClickNew | src/components/Admin/CategoryManager.tsx:67-69 | Opens the add form unless adding or editing; nothing else changes |
| CategoryManager.Editor.SetName | src/components/Admin/CategoryManager.tsx:89 | Only the draft's name changes |
| CategoryManager.Editor.SetDescription | src/components/Admin/CategoryManager.tsx:102 | Only the draft's description changes |
| CategoryManager.Editor.SetActive | src/components/Admin/CategoryManager.tsx:113 | Only the draft's flag changes |
| CategoryManager.Editor.HandleSaveNew | src/components/Admin/CategoryManager.tsx:32-38 | Blank name: no call, no change. Otherwise: one add call with the untrimmed draft, draft reset, adding ends |
| CategoryManager.Editor.HandleEdit | src/components/Admin/CategoryManager.tsx:40-47 | The edited id becomes the category's; its fields are copied into the draft, with a missing description as "" |
| CategoryManager.Editor.ClickEdit | src/components/Admin/CategoryManager.tsx:216-217 | Starts the edit unless adding or editing; otherwise nothing changes |
| CategoryManager.Editor.HandleSaveEdit | src/components/Admin/CategoryManager.tsx:49-55 | Only with an id set and a non-blank name: one edit call with the id and the whole draft, then editing ends and the draft resets; otherwise no call and no change |
| CategoryManager.Editor.HandleCancel | src/components/Admin/CategoryManager.tsx:57-61 | From any state, back to the initial state |
| CategoryManager.Editor.ClickDelete | src/components/Admin/CategoryManager.tsx:223-224 | One delete call with the category's id, unless adding or editing |
| Navigation.TopLevelIds | src/components/Navigation/MainNavigation.tsx:20-74 | Guest sees [home, catalog]; customer adds account; admin adds admin and analytics |
| Navigation.MenuShape | src/components/Navigation/MainNavigation.tsx:20-74 | Home comes first and links to "/"; every other top-level entry has sub-entries |
| Navigation.MainNavigation.constructor | src/components/Navigation/MainNavigation.tsx:17-74 | The role defaults to guest, so without a role the menu shows only home and catalog; nothing is expanded |
| Navigation.MainNavigation.ToggleExpanded | src/components/Navigation/MainNavigation.tsx:76-82 | The id flips between expanded and collapsed; no other id changes |
| Navigation.MainNavigation.HandleItemClick | src/components/Navigation/MainNavigation.tsx:84-94 | An entry with a children list toggles and never navigates; any other entry navigates and leaves the expansion alone. A parent with sub-entries shows them after the click iff it was collapsed |
| ProductCard.AvailabilityTextMatchesFilterLabels | src/components/Products/ProductCard.tsx:33-44 | The card's availability texts are the sidebar's labels for the same states |
| ProductCard.AvailabilityMappingsAgree | src/components/Products/ProductCard.tsx:33-57 | The unknown text and the muted colour go to exactly the unknown states; each known state's text matches its colour |
| ProductCard.LabelMatchesDisabled | src/components/Products/ProductCard.tsx:156-164 | The label is "Agregar al carrito" iff the button is enabled; "Agotado" iff out of stock and not loading; "Agregando..." iff loading |
| ProductCard.CatalogBadgesMatchOriginalPrices | src/components/Products/ProductCard.tsx:74-146 | In the built-in catalog, a product shows a discount badge iff it shows a struck-through original price |
| ProductCard.Card.constructor | src/components/Products/ProductCard.tsx:11-14 | A card starts not loading |
| ProductCard.Card.HandleAddToCart | src/components/Products/ProductCard.tsx:16-24 | Adds one unit to the cart, whose totals agree and whose tax is cleared. Loading ends false. Under distinct ids the unit count grows by exactly one |
| ProductCard.Card.ClickAdd | src/components/Products/ProductCard.tsx:154-156 | A disabled button leaves the cart's lines, subtotal, total and tax alone, so an out-of-stock product is never added; an enabled one adds one unit and clears the tax |

## Left out

- Persistence is not modelled: the reads and writes of browser storage and the JSON encoding. The restore methods take the already parsed value, or `None` when it is missing or does not parse. They do not validate it, so no cart invariant is assumed after a restore.
- Each `useCart()` caller owns a separate cart state that is synchronised only through storage on mount. The model has one store per use and no cross-instance sync.
- New category ids come from the clock. `AddCategory` takes the id as a parameter, and nothing guarantees that ids are unique.
- Prices and ratings are floating point in the source. The model uses integer cents and tenths, so it does not capture rounding of sums.
- Star rendering (`Math.floor` of the rating) is not modelled.
- CatalogView.Lower: lower-cases ASCII letters only, not the full Unicode mapping of `toLowerCase`.
- CatalogView.NameLeq: character-code order stands in for `localeCompare` collation.
- CatalogView.SortProducts: the order among equal keys is not specified, as a runtime's sort stability is not part of the program.
- Currency formatting, the WhatsApp order message and URL, and the simulated checkout are not modelled. They are formatting and browser actions.
- Parsing of the price inputs (`Number(...)`) is not modelled. `HandlePriceChange` takes the numbers.
- Rendering is not modelled: JSX, CSS classes, icons, hover state, the sidebar's section collapse state, the quick-view button, and the empty-list message. The header, footer, product grid and admin dashboard are not part of this model.
- CategoryManager.Editor.HandleSaveEdit: the draft is sent as a full update of name, description and flag, as the source passes it. A `Partial` whose fields are explicitly `undefined` cannot arise from this editor and is not modelled.
- CategoryManager.IsWhiteSpace: lists the white-space and line-terminator characters that `trim` removes, taking the Unicode space separators as of Unicode 15.
- Navigation.MainNavigation.HandleItemClick: `navigateTo` is the entry the page's optional `onNavigate` callback would receive; when the page passes no callback a leaf click does nothing, and the model does not track whether one was passed.
- ProductCard.Card.HandleAddToCart: the loading flag is raised and lowered within one synchronous call, so the model shows only its final value. The `try/finally` around the add has no failing path here.
- The `Cart.CartStore` tax field only appears in restored snapshots. Every change drops it, as the source's new cart objects carry no tax.
