# Storefront pricing and catalog pagination

A Dafny model of the two pieces of logic in the storefront's client pages.

- **Order summary** (module `ShoppingPage`, file `shopping.dfy`). The shopping-cart page
  computes four memoised values from the cart lines, the chosen shipping option and the
  typed discount code:
  - the subtotal, a left fold of `price * quantity` starting at 0;
  - the shipping cost, 10 for the string `"Express Delivery"` and 5 otherwise;
  - the discount, 10 for the exact code `"DISCOUNT10"` and 0 otherwise;
  - the total, subtotal + shipping − discount.

  It also shows each line's `price * quantity`. It renders either the "cart is empty"
  message or the summary panel, depending on the number of lines. The model also covers
  the shipping `<select>` and the strings it can feed into the shipping memo.
- **Catalog pagination** (module `ProductsPage`, file `products.dfy`). The products page
  splits the fetched products into pages of 12:
  - `totalPages = ceil(n / 12)`;
  - the current page's window is `data.slice(12p − 12, 12p)`, with the clamping of
    JavaScript's `slice`;
  - Prev, Next and the numbered buttons move the page counter, and they are rendered only
    when there is more than one page.

  The pure parts are functions. The page state (`data` and `currentPage`) is the class
  `Catalog`. Its methods keep the invariant `1 <= currentPage <= max(totalPages, 1)`.

Prices are exact `real` numbers and quantities are `int`.

The total is not clamped at zero (`src/app/shopping/page.tsx:20`). A discount larger than
subtotal + shipping gives a negative total; `ShoppingPage.TotalCanBeNegative` exhibits −5.

## Model

| member | source | states |
|---|---|---|
| `ShoppingPage.LineAmount` | src/app/shopping/page.tsx:70 | definition, no contract: one line's price times its quantity |
| `ShoppingPage.FoldSubtotal` | src/app/shopping/page.tsx:18 | definition, no contract: the `reduce` fold, threading the accumulator from the first line to the last |
| `ShoppingPage.Subtotal` | src/app/shopping/page.tsx:18 | definition, no contract: the subtotal memo, the fold started at 0 |
| `ShoppingPage.Total` | src/app/shopping/page.tsx:20 | definition, no contract: the total memo, subtotal + shipping − discount, unclamped |
| `ShoppingPage.ShowsEmptyMessage` | src/app/shopping/page.tsx:30-31 | definition, no contract: the empty-cart message is rendered when the cart has no lines |
| `ShoppingPage.ShowsSummary` | src/app/shopping/page.tsx:92 | definition, no contract: the summary panel is rendered when the cart has lines |
| `ShoppingPage.ShippingSelect` | src/app/shopping/page.tsx:109-110 | definition, no contract: the two rendered options, labelled with their prices, neither with a `value` attribute |
| `ShoppingPage.ReachableShippingOption` | src/app/shopping/page.tsx:104-111 | definition, no contract: a shipping-option string the page can hold, the initial one or one the select reports |
| `ShoppingPage.LineAmounts` | src/app/shopping/page.tsx:70 | one displayed amount per cart line, in order, each equal to that line's price times its quantity |
| `ShoppingPage.FoldIsAccPlusSum` | src/app/shopping/page.tsx:18 | the `reduce` fold started at any accumulator yields that accumulator plus the plain sum of the line amounts |
| `ShoppingPage.SubtotalIsSumOfLineAmounts` | src/app/shopping/page.tsx:18 | the subtotal equals the sum of the per-line amounts the list displays |
| `ShoppingPage.SubtotalOfEmpty` | src/app/shopping/page.tsx:18 | an empty cart has subtotal 0 (the fold's initial value) |
| `ShoppingPage.FoldAppend` | src/app/shopping/page.tsx:18 | appending a line to the folded list adds exactly that line's amount, whatever the accumulator |
| `ShoppingPage.SubtotalAppend` | src/app/shopping/page.tsx:18 | appending a line to the cart raises the subtotal by exactly its price times quantity |
| `ShoppingPage.SubtotalNonNegative` | src/app/shopping/page.tsx:18 | with non-negative prices and quantities the subtotal is non-negative |
| `ShoppingPage.ShippingCost` | src/app/shopping/page.tsx:17 | the cost is 10 iff the option is exactly "Express Delivery", and 5 iff it is anything else |
| `ShoppingPage.Discount` | src/app/shopping/page.tsx:19 | the discount is 10 iff the code is exactly "DISCOUNT10", and 0 iff it is anything else |
| `ShoppingPage.InitialStateCharges` | src/app/shopping/page.tsx:14-19 | the initial option "Standard Delivery" costs 5 and the initial empty code gives no discount |
| `ShoppingPage.DiscountIsCaseSensitive` | src/app/shopping/page.tsx:19 | a lower-case code and a code with a trailing space get no discount |
| `ShoppingPage.TotalBounds` | src/app/shopping/page.tsx:17-20 | for every cart, option and code, the total lies between subtotal − 5 and subtotal + 10 |
| `ShoppingPage.OrderSummary` | src/app/shopping/page.tsx:17-20 | the summary's subtotal is the sum of the line amounts; shipping is 5 or 10 and is 10 iff the option is "Express Delivery"; the discount is 0 or 10 and is 10 iff the code is "DISCOUNT10"; total = subtotal + shipping − discount, within [subtotal − 5, subtotal + 10] |
| `ShoppingPage.TotalCanBeNegative` | src/app/shopping/page.tsx:20 | no clamp: a non-empty cart with one free line, standard shipping and the code totals −5 |
| `ShoppingPage.WorkedExample` | src/app/shopping/page.tsx:17-20 | lines (10 × 2) and (5 × 3) give subtotal 35, total 40 without a code, and total 30 with "DISCOUNT10" |
| `ShoppingPage.ExactlyOneBranch` | src/app/shopping/page.tsx:30-92 | for every cart, the empty-cart message (no lines) is rendered iff the summary panel (some lines) is not |
| `ShoppingPage.SelectedValue` | src/app/shopping/page.tsx:104-111 | an option without a `value` attribute reports its text as the selected value, and one with a `value` attribute reports that value |
| `ShoppingPage.EveryReachableOptionCostsStandard` | src/app/shopping/page.tsx:104-111 | every shipping option string the page can reach (the initial one or one the select reports) costs 5 |
| `ShoppingPage.ExpressChoiceUndercharged` | src/app/shopping/page.tsx:109-110 | choosing the option labelled "Express Delivery - $10.00" is charged 5, not the advertised 10 |
| `ShoppingPage.IntendedSelectChargesAdvertised` | src/app/shopping/page.tsx:109-110 | with `value` attributes "Standard Delivery" and "Express Delivery" on the options, each choice is charged the price its label advertises |
| `ProductsPage.Catalog.PageCount` | src/app/products/page.tsx:47 | definition, no contract: the `totalPages` memo for the current data |
| `ProductsPage.JsSlice` | src/app/products/page.tsx:51 | definition, no contract: `slice(start, end)`, both arguments turned into indices, empty when the end does not pass the start |
| `ProductsPage.PageWindow` | src/app/products/page.tsx:48-52 | definition, no contract: the `currentProducts` memo, `data.slice(12p − 12, 12p)` |
| `ProductsPage.CurrentWindow` | src/app/products/page.tsx:48-52 | for every page the counter can hold (in [1, max(totalPages, 1)]) the window is the clamped range `data[min(12(p−1), n) .. min(12p, n)]`, holds at most 12 products, and is empty iff there is no data |
| `ProductsPage.ControlsVisible` | src/app/products/page.tsx:99 | definition, no contract: the controls are rendered when `totalPages > 1` |
| `ProductsPage.Press` | src/app/products/page.tsx:103-135 | definition, no contract: the page after one press of Prev, Next or a numbered button, by the handler each button is wired to |
| `ProductsPage.Run` | src/app/products/page.tsx:55-57 | definition, no contract: the page after a series of presses, applied in order |
| `ProductsPage.TotalPages` | src/app/products/page.tsx:47 | the page count is the least number of 12-item pages holding all n items: `12 * pages >= n` and `12 * (pages − 1) < n` when pages > 0 |
| `ProductsPage.NoPagesIffNoItems` | src/app/products/page.tsx:47 | the page count is 0 iff there are no products, and at least 1 otherwise |
| `ProductsPage.SliceIndex` | src/app/products/page.tsx:51 | a `slice` argument becomes an index in [0, len]: a non-negative argument becomes min(argument, len), a negative one max(len + argument, 0) |
| `ProductsPage.WindowShape` | src/app/products/page.tsx:48-52 | for page p ≥ 1 the window is `data[min(12(p−1), n) .. min(12p, n)]` and holds at most 12 products |
| `ProductsPage.WindowIndex` | src/app/products/page.tsx:48-52 | position j of page p's window is product 12(p−1) + j of the data |
| `ProductsPage.WindowNonEmpty` | src/app/products/page.tsx:47-52 | every page from 1 to the page count shows at least one product |
| `ProductsPage.WindowOutsidePagesEmpty` | src/app/products/page.tsx:47-52 | page 0 and every page past the page count show nothing |
| `ProductsPage.ItemOnItsPage` | src/app/products/page.tsx:47-52 | product i appears on page i / 12 + 1, which is within the page count, at position i % 12 |
| `ProductsPage.PagesUpToIsPrefix` | src/app/products/page.tsx:48-52 | the windows of pages 1..k, concatenated, are the first min(12k, n) products |
| `ProductsPage.PagesTileData` | src/app/products/page.tsx:47-52 | the windows of pages 1..totalPages, concatenated, are exactly the data in order |
| `ProductsPage.PreviousPage` | src/app/products/page.tsx:55 | the previous page is never below 1; it is p − 1 above page 1 and stays at 1 otherwise |
| `ProductsPage.NextPage` | src/app/products/page.tsx:56 | the next page never exceeds totalPages; it is p + 1 below the last page and totalPages otherwise |
| `ProductsPage.PrevDisabledIffNoOp` | src/app/products/page.tsx:104-105 | the Prev button is disabled (page 1) exactly when pressing it would not change the page |
| `ProductsPage.NextDisabledIffNoOp` | src/app/products/page.tsx:128-129 | the Next button is disabled (last page) exactly when pressing it would not change the page |
| `ProductsPage.ControlsVisibleIff` | src/app/products/page.tsx:99 | the pagination controls are rendered iff there are more than 12 products |
| `ProductsPage.PageButtons` | src/app/products/page.tsx:114-124 | there is one numbered button per page; button `index` targets page index + 1, which lies in [1, totalPages] |
| `ProductsPage.RunStaysInRange` | src/app/products/page.tsx:55-57 | from any page in [1, totalPages], any series of Prev, Next and numbered-button presses keeps the page in [1, totalPages] |
| `ProductsPage.Catalog.constructor` | src/app/products/page.tsx:18-20 | the page starts with no products, on page 1, and the invariant holds |
| `ProductsPage.Catalog.SetData` | src/app/products/page.tsx:35 | loading the fetched products replaces the empty list, keeps page 1 and keeps the invariant |
| `ProductsPage.Catalog.CurrentProducts` | src/app/products/page.tsx:48-52 | the shown products are the current page's clamped range of the data, at most 12 of them, and none only when there is no data |
| `ProductsPage.Catalog.GoToPreviousPage` | src/app/products/page.tsx:55 | the page becomes `PreviousPage` of the old page, the data is unchanged and the invariant holds |
| `ProductsPage.Catalog.GoToNextPage` | src/app/products/page.tsx:56 | the page becomes `NextPage` of the old page and the page count, the data is unchanged and the invariant holds |
| `ProductsPage.Catalog.GoToPage` | src/app/products/page.tsx:57 | the page becomes the button's target, the data is unchanged and the invariant holds |

## Findings

| source | as written | input that shows it | evidently intended | confidence | as-written member | corrected member |
|---|---|---|---|---|---|---|
| src/app/shopping/page.tsx:109-110 | the two `<option>` elements have no `value` attribute, so the select reports the full label, and the shipping memo (line 17) compares it with "Express Delivery" | choose "Express Delivery - $10.00": the shipping option becomes that label and the cost is 5 | the Express option is charged the 10 its label advertises | high; not executed | `ShoppingPage.ExpressChoiceUndercharged` | `ShoppingPage.IntendedSelectChargesAdvertised` |

## Left out

- The cart reducer (add, remove, increment, decrement) and `cart.totalQuantity` are not part of this model. Their code lives in a module not shown, so cart lines are taken as an input sequence of (price, quantity).
- The wishlist store and the wishlist page are not part of this model. The store lives in a module not shown, and the page only renders and forwards removals.
- The product fetch, its query, the Sanity client and the loading flag are left out. They are network I/O into a foreign library. The fetched list enters the model as the argument of `Catalog.SetData`, and a failed fetch is the absence of that call.
- Rendering, images, links, router navigation, icons and styling are left out as UI. The same goes for the product detail page, the home page and the carousel.
- IEEE-754 arithmetic and the `toFixed(2)` rounding of displayed amounts are left out. Amounts are exact reals.
- The `<select>` value is modelled per the HTML rule that an option without `value` reports its text. JSX trims the text, so no whitespace handling is modelled.
- Catalog.SetData: requires the list to be still empty. The fetch effect runs once, on mount, before any data exists. Setting data twice is not modelled.
- Catalog.GoToNextPage: requires the controls to be visible, because the Next button is rendered only when there is more than one page. With zero pages `Math.min(p + 1, 0)` would yield page 0, but no button can trigger that.
- Catalog.GoToPage: requires its argument to lie in [1, totalPages] and the controls to be visible. The source accepts any number, but its only callers are the numbered buttons, whose targets are `index + 1` for `index < totalPages`.
