# Furniture storefront: catalog queries, pricing, cart controls and header state in Dafny

This project models the deterministic logic of a small furniture storefront (a Next.js
application) and proves properties of it. It covers three areas.

- **Catalog query construction.** The products page turns its optional URL parameters
  (`category`, `material`, `search`, `minPrice`, `maxPrice`, `sortBy`) into a datastore
  filter and an ordering. The filter panel rebuilds catalog URLs. The sort menu overwrites
  `sortBy` and keeps every other parameter.
- **Pricing and quantity controls.** The checkout page and the cart sidebar quote a subtotal
  under the GST policy: free shipping from 2000, otherwise 200, and 18% tax. The cart page
  uses other rates: free shipping from 500, otherwise 50, and 8% tax. Every cart line has
  minus, plus, typed-quantity and remove controls.
- **Display and state rules.** These are the order-status badges, the cart badge, the
  search guards, and the open/closed state of the mobile menu.

The modules follow the source files:

| module | file | contents |
|---|---|---|
| `Wrappers` | `wrappers.dfy` | `Option` |
| `Text` | `text.dfy` | JavaScript truthiness, `trim`, ASCII case mapping, substring search, number-to-text |
| `QueryParams` | `query_params.dfy` | `URLSearchParams` as an ordered list of pairs, with `get` and `set` |
| `Pricing` | `pricing.dfy` | the two pricing policies and the free-shipping hint |
| `Cart` | `cart.dfy` | the cart as the pages read it, the actions they dispatch, the line controls |
| `ProductFilters` | `product_filters.dfy` | `buildFilterUrl`, the filter links, the price presets, the price-range state |
| `ProductSort` | `product_sort.dfy` | the sort options, the selected value, `handleSortChange` |
| `ProductsPage` | `products_page.dfy` | the `where` builder, the `orderBy` switch, the heading and the count line |
| `CheckoutPage` | `checkout_page.dfy` | the form state, the submit rule, the order summary |
| `CartSidebar` | `cart_sidebar.dfy` | the sidebar's dispatchers, its summary, its open state |
| `CartPage` | `cart_page.dfy` | the cart page's summary under its own rates |
| `OrdersPage` | `orders_page.dfy` | status badge, icon, label, payment badge, tracking, the order table |
| `Header` | `header.dfy` | the cart badge, the two search handlers, the mobile menu |

Some source values are modelled as inputs rather than computed:

- **Price parameters.** A price parameter is a `PriceText`: its URL text, plus what
  `parseFloat` and `parseInt` return for that text (`Number = NaN | Num(real)`). The page
  tests the text for presence, so "0" counts as given.
- **Typed quantities.** A typed quantity arrives as what `parseInt` returned, with `None`
  standing for NaN.
- **Money.** Amounts are exact `real` numbers.

## Model

| member | source | states |
|---|---|---|
| Text.TrimIsInnerSlice | src/components/header.tsx:23 | the trimmed query is the slice of the query between its leading and trailing white space, and only white space is cut off |
| Text.TrimEdges | src/components/header.tsx:23 | a non-empty trimmed query neither starts nor ends with white space |
| Text.TrimEmptyIffBlank | src/components/header.tsx:23 | a query trims to the empty string exactly when every character is JavaScript whitespace |
| Text.TrimIdempotent | src/components/header.tsx:24 | the trimmed term the header sends is already trimmed |
| Text.ExactMatchIsCaseInsensitiveMatch | src/app/products/page.tsx:35-37 | a term that occurs verbatim also occurs when case is ignored |
| Text.IntToString | src/components/product-filters.tsx:57-58 | a number's text is never empty and never the word "undefined", so the filter URL always keeps price bounds |
| QueryParams.Set | src/components/product-sort.tsx:24 | after `set(k, v)`, `k` occurs once with value `v`; every other name keeps its pairs, in order |
| QueryParams.WithoutKeepsOthers | src/components/product-sort.tsx:23-24 | dropping a name removes all its pairs and leaves every other name's lookups and counts unchanged |
| QueryParams.SetOverrides | src/components/product-sort.tsx:24 | setting a name twice equals setting it once, to the second value |
| Pricing.QuoteFor | src/app/checkout/page.tsx:39-42 | shipping is waived exactly from the threshold on and is the flat fee otherwise; tax is the rate times the subtotal; the total is the sum and never below a non-negative subtotal |
| Pricing.FreeShippingHint | src/app/checkout/page.tsx:459-461 | the hint appears exactly below the threshold, with a positive amount that brings the subtotal to the threshold |
| Pricing.HintIffShippingCharged | src/app/checkout/page.tsx:459-461 | the hint is shown exactly when a shipping fee is charged |
| Pricing.FollowingHintWaivesShipping | src/app/checkout/page.tsx:459-461 | adding the amount the hint shows makes shipping free |
| Pricing.GstExamples | src/app/checkout/page.tsx:40-42 | 1500 gives 200 shipping, 270 tax and 1970 in all; 2500 gives free shipping, 450 tax and 2950 in all |
| Pricing.PoliciesDisagree | src/app/cart/page.tsx:141-154 | at 1000 the cart page ships free while checkout charges 200, and the totals differ |
| Pricing.TotalGrowsWithinBand | src/app/checkout/page.tsx:39-42 | on one side of the threshold, a larger subtotal never has a smaller total |
| Pricing.ReachingThresholdLowersTotal | src/app/checkout/page.tsx:39-42 | when the taxed shortfall is below the flat fee, the total at the threshold is less than the total just below it |
| Pricing.GstJustBelowThresholdCostsMore | src/app/checkout/page.tsx:40-42 | at checkout, a subtotal of 1999 costs more in total than 2000 |
| Cart.Decrement | src/components/cart-sidebar.tsx:87-88 | minus sends one less for the same line exactly when the quantity is above one, so it never sends less than one |
| Cart.Increment | src/components/cart-sidebar.tsx:105 | plus sends one more for the same line |
| Cart.CoerceTyped | src/components/cart-sidebar.tsx:96 | `parseInt(..) \|\| 1` is never 0; it is 1 exactly for NaN, 0 and 1, and keeps every other number, negatives included |
| Cart.TypedQuantity | src/components/cart-sidebar.tsx:96 | typing sends the coerced quantity for the same line |
| Cart.TypedNonNegativeIsAtLeastOne | src/components/cart-sidebar.tsx:96 | typing a non-negative number (or text that is not a number) never sends a quantity below one |
| Cart.DecrementThenIncrement | src/components/cart-sidebar.tsx:87-105 | plus after minus sends the quantity the line had |
| Cart.Remove | src/components/cart-sidebar.tsx:114 | the trash button removes its own line |
| ProductFilters.BuildFilterUrl | src/components/product-filters.tsx:39-51 | the loop over the filter entries builds exactly the query the specification function describes |
| ProductFilters.LastKeptFindsKept | src/components/product-filters.tsx:44-48 | a name has a last kept value exactly when some entry of that name has a non-empty value other than "undefined" |
| ProductFilters.FilterParamsGet | src/components/product-filters.tsx:39-51 | each name holds its last kept value; `search` holds the search term unless an entry overrides it |
| ProductFilters.FilterParamsNoRepeats | src/components/product-filters.tsx:39-51 | the built query never names a parameter twice |
| ProductFilters.FilterKeyPresence | src/components/product-filters.tsx:44-48 | a name is in the URL exactly when one of its entries is kept, or it is `search` and the term is non-empty |
| ProductFilters.LastKeptOfDistinctName | src/components/product-filters.tsx:44-48 | with distinct names, the value found for an entry's name is that entry's value when kept |
| ProductFilters.BuiltQueryOfDistinctNames | src/components/product-filters.tsx:39-51 | with distinct names, each entry's name maps to its value when kept and is absent otherwise |
| ProductFilters.AbsentNameNotInQuery | src/components/product-filters.tsx:39-51 | a name that no entry uses does not appear in the URL |
| ProductFilters.MinPriceText | src/components/product-filters.tsx:34 | the minimum's text is the URL's value when non-empty, otherwise the slider minimum 0 |
| ProductFilters.MaxPriceText | src/components/product-filters.tsx:35 | the maximum's text is the URL's value when non-empty, otherwise the slider maximum 100000 |
| ProductFilters.LinkShape | src/components/product-filters.tsx:115-120 | a category/material/price link keeps the search term and both price bounds, and carries category and material exactly when they are kept |
| ProductFilters.AllCategoriesKeepsOthers | src/components/product-filters.tsx:99 | "All Categories" drops `category` and keeps the search term, the material and both price bounds |
| ProductFilters.AllMaterialsKeepsOthers | src/components/product-filters.tsx:193-197 | "All Materials" drops `material` and keeps the search term, the category and both price bounds |
| ProductFilters.CategoryLinkSelects | src/components/product-filters.tsx:115-120 | a category link selects that category and keeps the material, both price bounds and the search term |
| ProductFilters.MaterialLinkSelects | src/components/product-filters.tsx:213-218 | a material link selects that material and keeps the category, both price bounds and the search term |
| ProductFilters.ClearFiltersUrl | src/components/product-filters.tsx:63-65 | "Clear All" keeps only the search term, and only when it is non-empty |
| ProductFilters.PriceBandsTileSlider | src/components/product-filters.tsx:67-73 | there are five bands; they start at the slider minimum and end at its maximum; each band ends where the next starts |
| ProductFilters.PriceBandLinkBounds | src/components/product-filters.tsx:164-169 | a band's link asks for that band's bounds and keeps the category, the material and the search term |
| ProductFilters.FilterPanel.constructor | src/components/product-filters.tsx:37 | the slider starts at the bounds parsed from the URL |
| ProductFilters.FilterPanel.SetPriceRange | src/components/product-filters.tsx:138 | moving the slider replaces the price range |
| ProductFilters.FilterPanel.ApplyPriceFilter | src/components/product-filters.tsx:53-61 | the URL carries the slider's bounds and the kept category and material |
| ProductSort.SortOptionValuesDistinct | src/components/product-sort.tsx:14-20 | the five option values are pairwise distinct |
| ProductSort.SelectedSort | src/components/product-sort.tsx:31 | the selected value is the current sort when non-empty, otherwise "newest", the first option |
| ProductSort.HandleSortChange | src/components/product-sort.tsx:22-26 | afterwards `sortBy` occurs once with the chosen value; every other parameter is unchanged, in order |
| ProductSort.SecondSortChoiceWins | src/components/product-sort.tsx:22-26 | choosing two sorts in a row equals choosing only the second |
| ProductsPage.SearchClauseMeaning | src/app/products/page.tsx:33-38 | the three-way `OR` holds exactly when the term occurs, ignoring case, in the name, the description or the brand |
| ProductsPage.BuildWhere | src/app/products/page.tsx:23-39 | each constraint is present exactly when its parameter is given; the price object has `gte` only from the minimum and `lte` only from the maximum; the search adds exactly three case-insensitive matches; with nothing given the clause is empty; the clause selects exactly the products the URL asks for |
| ProductsPage.NoConstraintSelectsAll | src/app/products/page.tsx:24 | the empty clause lists every product |
| ProductsPage.SearchIgnoresCase | src/app/products/page.tsx:35-37 | searching for the lower-cased term selects the same products |
| ProductsPage.VerbatimNameMatchIsFound | src/app/products/page.tsx:35 | with only a search term given, a product whose name contains the term verbatim is listed |
| ProductsPage.BuildOrderBy | src/app/products/page.tsx:41-61 | the ordering is the table's entry for the four recognised keys, and newest first for "newest", for any other value and for none |
| ProductsPage.SortMenuMatchesSwitch | src/app/products/page.tsx:43-60 | the switch recognises exactly the values the sort menu offers, and each option gives a different ordering |
| ProductsPage.SelectedSortAgreesWithOrdering | src/app/products/page.tsx:107 | the option the menu shows as selected orders the catalog the way the page does |
| ProductsPage.FilterPropsFor | src/app/products/page.tsx:86-89 | the panel receives category and material as they are, and each price bound only when its text is non-empty |
| ProductsPage.Heading | src/app/products/page.tsx:99 | the heading is "<category> Furniture" for a non-empty category, and "All Products" exactly otherwise |
| ProductsPage.CountLabelPluralUnlessOne | src/app/products/page.tsx:104 | the noun is plural exactly when the count is not one |
| ProductsPage.ResultSummary | src/app/products/page.tsx:102-104 | the line is the search phrase when there is a search, then the material segment when a material is given, then the count label, and nothing else (its length is exactly the sum of those parts) |
| ProductsPage.AllCategoriesFromPage | src/app/products/page.tsx:83-90 | through the props the page passes, "All Categories" drops the category and keeps the material the URL asked for |
| ProductsPage.PriceBandQuery | src/components/product-filters.tsx:164-169 | the catalog reads a band link's category, material and search as the link carries them, and each bound as the given, non-empty text the link carries, whose digits are worth the band's bound |
| ProductsPage.BoundaryPriceInBothBands | src/app/products/page.tsx:28-31 | both price bounds of the where clause are inclusive, so a product priced at the edge two neighbouring bands share is listed by both bands' where clauses or by neither, and only the non-price filters decide which |
| ProductsPage.SharedEdgeInBoth | src/app/products/page.tsx:28-31 | the same for any two bands where the first ends at the start of the second |
| CheckoutPage.SectionFor | src/app/checkout/page.tsx:319-391 | the UPI fields, the card fields or the cash-on-delivery note appear for the matching method, and nothing appears for no method |
| CheckoutPage.ChoosingPaymentEnablesSubmit | src/app/checkout/page.tsx:399 | after any of the three payment methods is chosen, the button is disabled only while processing |
| CheckoutPage.CheckoutForm.constructor | src/app/checkout/page.tsx:19-37 | the page starts out not processing, with all fourteen fields empty and the button disabled |
| CheckoutPage.CheckoutForm.HandleInputChange | src/app/checkout/page.tsx:44-46 | only the named field changes; choosing a payment method decides the button |
| CheckoutPage.CheckoutForm.HandleSubmit | src/app/checkout/page.tsx:48-59 | submitting sets processing, which disables the button; the deferred action clears the cart and the page then goes to /checkout/success |
| CheckoutPage.LineFor | src/app/checkout/page.tsx:425-429 | a summary line shows the item's name, its quantity, and the amount price times quantity, which is at least one unit price |
| CheckoutPage.CheckoutScreen | src/app/checkout/page.tsx:61-77 | an empty cart shows the empty view; otherwise the page shows one line per item, the GST quote and the hint |
| CheckoutPage.CheckoutSummaryRules | src/app/checkout/page.tsx:39-42 | at checkout, shipping is free from 2000 and 200 below; tax is 18%; the hint asks for 2000 minus the subtotal exactly when 200 is charged |
| CartSidebar.UpdateQuantityFor | src/components/cart-sidebar.tsx:22-24 | the quantity update is sent as given, without a confirmation |
| CartSidebar.RemoveItemFor | src/components/cart-sidebar.tsx:26-29 | removing sends the line's removal and confirms it |
| CartSidebar.ClearCartFor | src/components/cart-sidebar.tsx:31-34 | clearing sends the clear action and confirms it |
| CartSidebar.SidebarBody | src/components/cart-sidebar.tsx:54-63 | an empty cart shows the empty view; otherwise the sidebar shows the item count, the lines, the GST quote and the hint |
| CartSidebar.SidebarPricesLikeCheckout | src/components/cart-sidebar.tsx:36-39 | the sidebar uses the checkout's rates (2000 threshold, 200 flat fee, 18% tax, the hint exactly when shipping is charged) and shows the same quote and hint as the checkout page |
| CartSidebar.Sidebar.constructor | src/components/cart-sidebar.tsx:20 | the sidebar starts closed |
| CartSidebar.Sidebar.OnOpenChange | src/components/cart-sidebar.tsx:42 | the sheet's own requests set the open state |
| CartSidebar.Sidebar.CloseFromButton | src/components/cart-sidebar.tsx:59 | "Continue Shopping" closes the sidebar |
| CartSidebar.Sidebar.ProceedToCheckout | src/components/cart-sidebar.tsx:161-162 | "Proceed to Checkout" closes the sidebar and goes to /checkout |
| CartPage.UpdateQuantityFor | src/app/cart/page.tsx:15-17 | the quantity update is sent as given |
| CartPage.RemoveItemFor | src/app/cart/page.tsx:19-21 | the trash button removes the given line |
| CartPage.ClearCartFor | src/app/cart/page.tsx:23-25 | "Clear Cart" clears the cart |
| CartPage.SameActionsAsSidebar | src/app/cart/page.tsx:15-25 | the cart page sends the sidebar's actions, while only the sidebar confirms a removal or a clear with a message |
| CartPage.CartPageBody | src/app/cart/page.tsx:27-43 | an empty cart shows the empty view; otherwise the page shows the cart-page quote, "Free" exactly when shipping is waived, and the hint |
| CartPage.CartPageRules | src/app/cart/page.tsx:141-154 | on the cart page, shipping is free from 500 and 50 below; tax is 8%; the hint asks for 500 minus the subtotal exactly when shipping is charged |
| CartPage.FreeHereChargedAtCheckout | src/app/cart/page.tsx:141 | the cart page shows free shipping that checkout then charges exactly for subtotals from 500 up to, but not including, 2000 |
| CartPage.CartPageQuotesLess | src/app/cart/page.tsx:154 | for every non-negative subtotal, the cart page's total is below the checkout's |
| OrdersPage.StatusColor | src/app/orders/page.tsx:54-62 | delivered gives default, shipped gives secondary, cancelled gives destructive, and every other status gives outline |
| OrdersPage.StatusIcon | src/app/orders/page.tsx:64-71 | the truck icon is used exactly for shipped orders |
| OrdersPage.TruckIffSecondary | src/app/orders/page.tsx:54-71 | the truck icon goes with the secondary badge and with no other |
| OrdersPage.StatusLabel | src/app/orders/page.tsx:112 | the label has the status's length, its first character upper-cased and the rest unchanged |
| OrdersPage.LowerInitialCapitalised | src/app/orders/page.tsx:112 | a status starting with a lower-case letter gets that letter's capital, followed by the rest unchanged |
| OrdersPage.ShippedLabel | src/app/orders/page.tsx:112 | "shipped" reads "Shipped" |
| OrdersPage.StatusLabelIdempotent | src/app/orders/page.tsx:112 | capitalising a label again changes nothing |
| OrdersPage.PaymentBadge | src/app/orders/page.tsx:127 | the payment badge is default exactly for "paid", and outline otherwise |
| OrdersPage.TrackingText | src/app/orders/page.tsx:137 | the tracking cell shows the number when there is one, and "Not assigned" otherwise |
| OrdersPage.TrackButtonIffAssigned | src/app/orders/page.tsx:160 | the track button appears exactly when the tracking cell shows a number |
| OrdersPage.CardFor | src/app/orders/page.tsx:96-165 | a card shows the order's status icon, status badge, status label, payment badge and tracking text; its truck icon goes with its secondary badge; the track button follows the tracking number; the item count is the number of items |
| OrdersPage.OrdersTableConsistent | src/app/orders/page.tsx:8-52 | each listed total is the sum of its items; a listed order has a tracking number exactly when it is paid |
| Header.CartBadge | src/components/header.tsx:132-135 | the badge shows exactly for a positive count; it reads "99+" exactly above 99 and the count otherwise; it is never longer than three characters |
| Header.CartBadgeReadsBack | src/components/header.tsx:134 | a badge of 1 to 99 reads back as the item count |
| Header.MenuRunAppend | src/components/header.tsx:40-52 | running two event sequences back to back equals running their concatenation |
| Header.ToggleParity | src/components/header.tsx:44-46 | n presses of the menu button leave the menu as it was exactly when n is even |
| Header.CloseEndsClosed | src/components/header.tsx:40-52 | after any events, closing or Escape leaves the menu closed |
| Header.SearchUrl | src/components/header.tsx:24 | the search URL carries the trimmed term as its only parameter |
| Header.SearchLandsOnCatalog | src/components/header.tsx:24 | the catalog reached from a header search lists exactly the products whose name, description or brand contains the trimmed term, ignoring case |
| Header.HeaderState.constructor | src/components/header.tsx:15-17 | both queries start empty and the menu starts closed |
| Header.HeaderState.SetSearchQuery | src/components/header.tsx:108 | typing in the desktop box changes only the desktop query |
| Header.HeaderState.SetMobileSearchQuery | src/components/header.tsx:194 | typing in the menu box changes only the mobile query |
| Header.HeaderState.HandleSearch | src/components/header.tsx:21-26 | the desktop search navigates exactly when the query is not blank, with the trimmed, non-empty term |
| Header.HeaderState.HandleMobileSearch | src/components/header.tsx:28-38 | a non-blank mobile search navigates, closes the menu, clears the query and confirms; a blank one reports an error and changes nothing |
| Header.HeaderState.ToggleMobileMenu | src/components/header.tsx:44-46 | the menu button flips the menu |
| Header.HeaderState.CloseMobileMenu | src/components/header.tsx:40-42 | closing leaves the menu closed |
| Header.HeaderState.FollowMenuLink | src/components/header.tsx:206-280 | a menu link closes the menu, goes to its page and shows its message |
| Header.MenuLinksConfirm | src/components/header.tsx:206-280 | every menu link confirms with a success message except Help & Support, which shows an info message; only the two orders links share a target |
| Header.HeaderState.KeyDown | src/components/header.tsx:49-57 | Escape closes the menu; other keys change nothing |
| Header.HeaderState.OpenSearchFromToolbar | src/components/header.tsx:120-123 | the toolbar's search button opens the menu and points to its search box |

## Left out

- The cart reducer (`@/contexts/cart-context`) is not part of this model. The pages only read the items, the item count and the subtotal, and dispatch actions. The actions are values here; what the store does with them is not modelled.
- `parseInt` and `parseFloat` are not modelled. Their results are inputs: `PriceText.asFloat` and `asInt`, and the `Option<int>` of a typed quantity.
- `ProductFilters.FilterContext`: the parsed price bounds are integers. The NaN that `parseInt` returns for non-numeric URL text is not represented.
- URL serialisation (`toString`) and percent-encoding (`encodeURIComponent`) are left out. Queries are lists of decoded name/value pairs. "Clear All" interpolates the term without encoding, and that difference is not modelled either.
- Floating-point arithmetic and display formatting are left out: `toLocaleString('en-IN')`, `toFixed(2)`, and the "Free"/amount captions. Amounts are exact reals.
- `Text.Lower`: case-insensitive matching folds ASCII letters only. The datastore's full Unicode case folding is not modelled.
- `OrdersPage.StatusLabel`: `toUpperCase` is modelled for ASCII letters only. Full Unicode upper-casing, where one character may become several, is not modelled.
- `Text.IntToString`: negative numbers are written with a minus sign. Exponent notation for very large numbers is not modelled.
- The datastore queries are left out: `findMany`, and the `distinct` lists of categories and materials. The model gives the semantics of the `where` clause (`ProductsPage.Selects`) but does not model fetching or ordering rows.
- Navigation, toasts, timers and document effects are not performed: `router.push`, the two-second delay before the cart is cleared, the `keydown` listener's attachment, and `body.style.overflow`. The header's searches and mobile-menu links, the sidebar's "Proceed to Checkout" and the checkout submission return their target and message as values. The header's desktop navigation links and logo (src/components/header.tsx:73-94), the empty views' links to the catalog and the other plain links of the pages are static `href`s and are not modelled.
- `ProductsPage.Selects` (with `AtLeast` and `AtMost`): a price bound whose text `parseFloat` reads as NaN (`?minPrice=abc`) is modelled as a comparison that no product satisfies, so the catalog lists nothing. The datastore is not part of this model, and it may instead reject such a query with an error; that behaviour is not captured.
- The `minPrice`/`maxPrice` props of the filter panel are not modelled. The page passes them, but the panel never reads them; it re-reads the bounds from the URL.
- HTML form validation is not modelled. This covers the `required` fields and the `min="1"` of the quantity box, which the browser enforces, not the code.
- Dates in the order table are left out: placement, estimated delivery and their formatting.
- The checkout success page is left out, because its order number derives from the clock. The static pages are left out as well.
- The sort menu may display a value that is not one of its options, such as an unknown `sortBy`. What the select widget then shows is not modelled.
