# Academic Shelf storefront: a Dafny model of its handlers

Academic Shelf is a client-side campus storefront. Users register and log in,
add "Records" and "Booklets" to a cart, and check out with UPI or cash. They
see their own orders. An admin sees the month's revenue and adjusts stock.
Every piece of state lives in the browser's key-value store under five keys:
`users`, `products`, `cart`, `orders` and `currentUser`. Each event handler
reads one of these collections, changes it and writes it back.

This project models that store and its handlers, and proves the invariants the
handlers keep:

- `model.dfy` (module `Model`): the stored entities (`User`, `Product`,
  `CartItem`, `Order`, `Date`), the error taxonomy, and `Result`, which pairs an
  error with the route a page redirects to.
- `cart_lines.dfy` (`CartLines`): the cart as a list of lines. It covers
  merge-or-append by product id, removal, the +/- controls clamped at 1, and
  the total price, with lemmas relating these operations to each other.
- `catalog.dfy` (`Catalog`): the two seeded default products and the admin's
  stock update, which is clamped at 0.
- `admin_stats.dfy` (`AdminStats`): the month statistics and the daily revenue
  series. Both are loops proved against recursive specification functions.
  The module also proves that the daily values add up to the month's revenue.
- `accounts.dfy` (`Accounts`): the `find` loops of login and registration,
  and the distinct-e-mail invariant.
- `orders_view.dfy` (`OrdersView`): the per-user order filter on the My Orders
  page.
- `decimal.dfy` (`Decimal`): `Date.now().toString()`. It is injective, so user
  ids and order codes taken at different instants differ.
- `storefront.dfy` (`Storefront`): class `Store`, which holds the five keys as
  fields and has one method per handler. Class `CartPage` holds the checkout
  dialog's state next to the store. `Store.Valid()` is what every handler
  preserves: distinct e-mails, unique cart ids, quantities of at least 1,
  non-negative stock, and every order total equal to the total of its lines.
- `walkthrough.dfy` (`Walkthrough`): two client sessions (register with a wrong
  and a right login; two additions and a cash checkout giving a total of 240),
  proved from the contracts alone.

Clock readings are parameters: the timestamp `now` behind ids and order codes,
and the `(year, month, day)` of a date, with the month counted from 0 as
`getMonth` counts it. `DaysInMonth` is the Gregorian month length.

The model follows the code as written, including these behaviours a reader might
not expect:

- E-mails are compared exactly, so uniqueness is case-sensitive.
- Defaults are seeded only when the `products` key is absent. A stored empty
  list is not reseeded; the field `Store.productsSaved` records whether the key
  exists.
- The statistics count items by their name ("Records", "Booklets"), not by
  their product type.
- The order status is the string "Pending".
- Checkout does not decrement stock, and adding to the cart does not check it.
- Every chart label reads "Nov <day>", whatever the current month is.
- There is one stored cart, not one per user. Logout removes only
  `currentUser`, so lines added in an earlier session are still in the cart, and
  `ConfirmOrder` places them under whoever is signed in now.

## Model

| member | source | states |
|---|---|---|
| Decimal.DecimalString | src/pages/Auth.tsx:48 | a timestamp's numeral is non-empty, all digits, one digit exactly below 10 |
| Decimal.DecimalStringInjective | src/pages/Auth.tsx:48 | different timestamps give different numerals |
| Decimal.PrefixedInjective | src/pages/Cart.tsx:79 | a fixed prefix plus a numeral determines the timestamp |
| Storefront.OrderCodesDiffer | src/pages/Cart.tsx:79 | order codes "AC" + timestamp differ for different instants |
| Accounts.NewUserIdsDiffer | src/pages/Auth.tsx:47-48 | users registered at different instants get different ids |
| CartLines.FirstIndex | src/pages/Home.tsx:56 | the first line with the id, or the cart length exactly when no line has it |
| CartLines.FindLine | src/pages/Products.tsx:84 | the `find` loop stops at the first line with the id, or at the end when none matches |
| CartLines.AddLineAt | src/pages/Home.tsx:56-62 | merge-or-append is the in-place increment at the found index, or a push of a quantity-1 line |
| CartLines.AddLineExisting | src/pages/Home.tsx:56-59 | an existing line gains exactly one unit; length and every other line unchanged |
| CartLines.AddLineNew | src/pages/Home.tsx:60-62 | without a line for the product, exactly one line with its fields and quantity 1 is appended at the end |
| CartLines.AddLineLinesFor | src/pages/Home.tsx:56-64 | lines of other product ids are untouched by an addition |
| CartLines.AddTimesCountsAdditions | src/pages/Home.tsx:55-64 | n additions of a product absent from the cart leave exactly one line for it, with quantity n |
| CartLines.AddLineKeepsUniqueIds | src/pages/Products.tsx:84-90 | an addition never creates a second line for an id |
| CartLines.AddLineKeepsQuantities | src/pages/Products.tsx:86-90 | an addition keeps every quantity at least 1 |
| CartLines.TotalPriceAddLine | src/pages/Home.tsx:55-64 | one addition raises the cart total by one unit's price |
| CartLines.RemoveLine | src/pages/Cart.tsx:47 | the kept lines are exactly the cart's lines whose id differs |
| CartLines.RemoveLineAppend | src/pages/Cart.tsx:47 | removal keeps the relative order (distributes over concatenation) |
| CartLines.RemoveLineAbsent | src/pages/Cart.tsx:47 | removing an id the cart lacks changes nothing |
| CartLines.RemoveLineIdempotent | src/pages/Cart.tsx:46-49 | removing twice equals removing once |
| CartLines.RemoveLineKeepsWellFormed | src/pages/Cart.tsx:46-49 | removal keeps ids unique and quantities at least 1 |
| CartLines.ChangeQuantity | src/pages/Cart.tsx:53-60 | same length; matching lines get quantity max(1, q + change), all else unchanged |
| CartLines.ChangeQuantityFloor | src/pages/Cart.tsx:56 | no matching line ends below quantity 1, for any change |
| CartLines.ChangeQuantityKeepsWellFormed | src/pages/Cart.tsx:53-60 | the +/- controls keep ids unique and quantities at least 1 |
| CartLines.PlusThenMinus | src/pages/Cart.tsx:129-143 | "-" after "+" restores a cart whose quantities are at least 1 |
| CartLines.TotalPriceAppend | src/pages/Cart.tsx:65-67 | the total of joined carts is the sum of their totals |
| CartLines.TotalPriceSplit | src/pages/Cart.tsx:46-67 | the total is the removed lines' total plus the kept lines' total |
| Catalog.DefaultsWellFormed | src/pages/Products.tsx:26-43 | two defaults: distinct ids, positive prices, non-negative stock, one Records and one Booklets |
| Catalog.StockFromInput | src/pages/Admin.tsx:385 | a non-numeric stock entry counts as 0, a number as itself |
| Catalog.SetStock | src/pages/Admin.tsx:100-107 | same length; matching products get stock max(0, n), all others unchanged |
| Catalog.SetStockKeepsCatalog | src/pages/Admin.tsx:100-107 | any input keeps stock non-negative, the ids in order, and every other field |
| Catalog.SetStockClamps | src/pages/Admin.tsx:101 | the matching product's stock becomes max(0, n), never negative |
| Catalog.SetStockIdempotent | src/pages/Admin.tsx:100-107 | entering the same value twice equals entering it once |
| AdminStats.DaysInMonth | src/pages/Admin.tsx:153 | month length 28..31, 29 in February exactly in leap years |
| AdminStats.MonthOrders | src/pages/Admin.tsx:121-124 | the kept orders are exactly those of the given month and year |
| AdminStats.FilterMonth | src/pages/Admin.tsx:121-124 | the filter loop yields the month's orders in ledger order |
| AdminStats.AddTotals | src/pages/Admin.tsx:126 | the reduce loop yields the sum of the orders' stored totals |
| AdminStats.TallyItems | src/pages/Admin.tsx:134-142 | the inner loop adds quantity and quantity x price of "Records" items to one pair of counters and of "Booklets" items to the other |
| AdminStats.ComputeMonthStats | src/pages/Admin.tsx:116-146 | revenue is the month's order totals; per-name quantity and quantity x price over items named "Records" and "Booklets" |
| AdminStats.OtherMonthIgnored | src/pages/Admin.tsx:121-126 | an order of another month changes neither the month's orders nor its revenue |
| AdminStats.OtherNameIgnored | src/pages/Admin.tsx:133-143 | an item of any other name changes no per-name counter |
| AdminStats.NamedAmountsMakeRevenue | src/pages/Admin.tsx:126-143 | with checkout-consistent totals and only the two item names, Records plus Booklets revenue is the total revenue |
| AdminStats.DailyRevenue | src/pages/Admin.tsx:155-169 | one entry per day 1..daysInMonth, each the total of that day's orders (0 when none) |
| AdminStats.DailyValuesSumToRevenue | src/pages/Admin.tsx:155-169 | the unfiltered daily values add up to the month's revenue |
| AdminStats.ShownDaysExact | src/pages/Admin.tsx:172-173 | the kept days among 1..n are exactly those with d % 5 == 0, d == 1 or d == daysInMonth, strictly ascending |
| AdminStats.RevenueSeries | src/pages/Admin.tsx:149-178 | one point per shown day, ascending, labelled "Nov d", carrying that day's revenue |
| AdminStats.NonAdminUsers | src/pages/Admin.tsx:339-340 | the users tab lists exactly the stored users whose e-mail is not the admin's |
| Accounts.FindByCredentials | src/pages/Auth.tsx:25-28 | the first user whose e-mail and password both match, or the end when none does |
| Accounts.FindByEmail | src/pages/Auth.tsx:39-40 | finds a user exactly when the e-mail is taken |
| Accounts.RegisterKeepsEmailsDistinct | src/pages/Auth.tsx:40-56 | appending an untaken e-mail keeps e-mails pairwise distinct |
| Accounts.LoginMatchUnique | src/pages/Auth.tsx:25-28 | with distinct e-mails at most one user matches a login |
| OrdersView.UserOrders | src/pages/MyOrders.tsx:26-27 | the shown orders are exactly the ledger's orders with the user's id |
| OrdersView.UserOrdersAppend | src/pages/MyOrders.tsx:27 | the filter keeps the ledger's relative order |
| OrdersView.MyOrdersPage | src/pages/MyOrders.tsx:19-29 | no user: nothing loaded, redirect to /auth; otherwise exactly the user's orders |
| OrdersView.SubtotalsSum | src/pages/MyOrders.tsx:76 | the shown line subtotals price x quantity add up to the lines' total |
| OrdersView.DisplayedTotalMatchesLines | src/pages/MyOrders.tsx:76-82 | the stored total shown equals the sum of shown subtotals for a checkout-written order |
| Storefront.Store.SeedProducts | src/pages/Products.tsx:22-49 | with the key absent the two defaults are written; otherwise the products are unchanged |
| Storefront.Store.AddLineInPlace | src/pages/Home.tsx:55-64 | find, in-place increment or push yields the merge-or-append cart |
| Storefront.Store.AddToCartFromHome | src/pages/Home.tsx:43-66 | no user: Unauthenticated, cart unchanged; admin: Forbidden, cart unchanged; else merge-or-append; invariant kept |
| Storefront.Store.AddToCartFromProducts | src/pages/Products.tsx:70-94 | as on Home, with a redirect to /auth when no user is signed in |
| Storefront.Store.UpdateStock | src/pages/Admin.tsx:100-113 | products become the clamped update of the old list, the key is written, invariant kept |
| Storefront.Store.OpenAdmin | src/pages/Admin.tsx:19-27 | data loaded exactly for the admin identity; otherwise Forbidden and a redirect to / |
| Storefront.Store.Login | src/pages/Auth.tsx:23-36 | succeeds iff some user matches; the first match becomes current; on failure nothing changes |
| Storefront.Store.Register | src/pages/Auth.tsx:37-61 | a taken e-mail is refused with nothing changed; else one user with the inputs is appended and becomes current |
| Storefront.CartPage.constructor | src/pages/Cart.tsx:25-29 | dialogs closed, no order code, cash selected |
| Storefront.CartPage.Mount | src/pages/Cart.tsx:32-44 | no user: redirect to /auth; otherwise the stored cart is loaded |
| Storefront.CartPage.RemoveFromCart | src/pages/Cart.tsx:46-51 | the stored cart loses exactly the lines with the id; invariant kept |
| Storefront.CartPage.UpdateQuantity | src/pages/Cart.tsx:53-63 | the stored cart gets the clamped quantity change; invariant kept |
| Storefront.CartPage.HandleCheckout | src/pages/Cart.tsx:69-75 | empty cart: EmptyCart, dialog unchanged, store untouched; otherwise the dialog opens |
| Storefront.CartPage.ChoosePayment | src/pages/Cart.tsx:184 | the selected payment method becomes the chosen one |
| Storefront.CartPage.Cancel | src/pages/Cart.tsx:227 | the dialog closes; no store field changes |
| Storefront.CartPage.ConfirmOrder | src/pages/Cart.tsx:77-103 | appends exactly one Pending order holding the old cart, its total, the payment method, the user and code "AC"+now; earlier orders kept; cart emptied, total 0 |

## Left out

- Rendering, dialogs, toasts and navigation are left out. A redirect or an error message is modelled only as the `Result` a handler returns.
- The Supabase query, its row transform and the realtime subscription (src/pages/Admin.tsx:30-47, 56-97) are remote calls. The admin's orders are the stored orders, which is the page's fallback when those calls fail.
- The `storage` listeners and the one-second polling (src/pages/Home.tsx:20-34, src/pages/Products.tsx:52-68) are left out, and so are lost updates between tabs. These are timing and concurrency, not logic.
- Page state that copies a stored collection is modelled as the stored field itself. The Cart page's `cart` and the Admin page's `products` are examples: each page loads the collection and writes it back after every change.
- `Date.now()`, `new Date()`, time zones and the formatting of dates and currency are left out. Timestamps and calendar dates are parameters.
- JSON serialisation is left out. JavaScript numbers are unbounded integers here, so neither floating-point rounding nor precision loss above 2^53 is modelled.
- The UPI QR-code URL is a constant with no logic, and the logout in src/App.tsx:26-30 only removes `currentUser`. Neither is modelled.
- Storefront.Store.Login, Storefront.Store.Register: the navigation to "/" after a successful login or registration (src/pages/Auth.tsx:33, 60) is not modelled; `Ok(user)` carries no route.
- Storefront.CartPage.ConfirmOrder: requires a signed-in user. The page reads `currentUser.id` without a check, so with no user it throws.
- Storefront.Store.Valid: each handler promises to keep the invariant only if it held before (`old(Valid()) ==> Valid()`). A collection written by other code may not satisfy it.
