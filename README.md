# AeroMerge storefront — a verified model of its core

AeroMerge is a single-page shoe shop written as one browser script,
`app.js`. This project models its core in Dafny:

- the **catalog**: the three products and the queries over them. These are
  lookup by id, the featured filter, the category filter with its four sort
  orders, and the free-text search;
- the **cart engine**: add, remove and quantity change on lines keyed by
  product id and size, with the item count and subtotal derived from the lines;
- the **router**: `showPage` and its entry hooks, the navigation handlers and
  the checkout guard;
- the **thank-you countdown**, with the clock as an explicit `Tick`;
- the **payment-field formatters**: card number, expiry date and CVV.

Files and modules:

- `options.dfy`: the `Option` datatype.
- `seqs.dfy`: subsequences and `Filter`.
- `text.dfy`: `trim`, `toLowerCase`, `includes` and digit stripping.
- `catalog.dfy`: the product record, the catalog and its queries.
- `cart.dfy`: cart lines, the cart operations, the totals and the cart views.
- `paymentformat.dfy`: the three input formatters.
- `orders.dfy`: the order number and the order record.
- `storefront.dfy`: the page session as a class. Its fields are the
  script's globals (`currentPage`, `cart`, `currentProduct`,
  `filteredProducts`, the redirect timer), and each handler that updates
  them is a method.
- `scenarios.dfy`: concrete runs over the shipped catalog.

Every cart operation is a pure function on the list of lines, and the
session methods are proved equal to it. Prices are integer cents.

Where the written description of the shop and `app.js` differ, the model
follows the code:

- **Countdown timing.** The countdown shows 5 at once, then 4, 3, 2, 1 and 0
  on the following ticks. The tick that shows 0 also goes home, so home is
  reached on the fifth tick, not on a tick after 0.
- **Cancelling the countdown.** Only a `data-page` link and the Continue
  Shopping button cancel it. The cart icon, the category links and Buy Now
  navigate without cancelling.
- **Quantity.** `addToCart` does not check the quantity it is given.

## Model

| member | source | states |
|---|---|---|
| Text.TrimStart | app.js:592 | the result is a suffix of the input; everything dropped is whitespace, and the result does not start with whitespace |
| Text.TrimEnd | app.js:592 | the result is a prefix of the input; everything dropped is whitespace, and the result does not end with whitespace |
| Text.Trim | app.js:592 | `trim` gives the slice of the input between its leading and trailing whitespace; everything outside the slice is whitespace, and the slice neither starts nor ends with whitespace |
| Text.TrimEmptyIffAllWhitespace | app.js:592 | `query.trim()` is empty exactly when every character of the query is whitespace |
| Text.ToLower | app.js:595-597 | the length is kept and each character is lower-cased on its own |
| Text.ToLowerIdempotent | app.js:595-597 | lower-casing an already lower-cased string changes nothing |
| Text.Contains | app.js:595-597 | `includes`: the empty needle is found in every string, a prefix is found, and a needle longer than the haystack never is |
| Text.DigitsAppend | app.js:893 | removing non-digits from two strings joined is the same as joining the two results |
| Text.Digits | app.js:892-907 | `replace(/\D/g, '')` leaves digits only, never lengthens the string, keeps a string of digits whole and empties one without digits; with `Text.DigitsAppend` this fixes the result for every input |
| Catalog.FindById | app.js:282-283 | nothing is found exactly when no product has the id; otherwise the result is the first product with that id |
| Catalog.FindByUniqueId | app.js:2-47 | with unique ids, looking up a product's id finds that product |
| Catalog.ShippedCatalog | app.js:2-45 | the shipped catalog holds three products with ids 1 to 3, each featured, with a positive price and stock |
| Catalog.Featured | app.js:258 | the home grid is an order-preserving subsequence of the catalog and holds exactly the featured products |
| Catalog.InCategory | app.js:565-569 | the empty value keeps the whole catalog; any other value keeps, in order, exactly the products of that category |
| Catalog.ParseSortKey | app.js:572-585 | the sort select's value picks price ascending, price descending or popularity exactly for its three names; `newest` and every other value pick newest first |
| Catalog.Insert | app.js:572-585 | inserting into a sorted list keeps it sorted and adds exactly the one element |
| Catalog.SortBy | app.js:572-585 | the comparator sort gives a permutation of its input, ordered by the comparator |
| Catalog.SortedByMeaning | app.js:573-584 | each sort order means price ascending, price descending, stock descending, or id descending |
| Catalog.FilterAndSort | app.js:555-586 | `filterProducts` lists exactly the products of the selected category; each of the four orders holds, and any unknown sort value orders newest first |
| Catalog.Matches | app.js:595-599 | a product matches when the lower-cased query occurs in its lower-cased name, description or category; the empty query matches every product |
| Catalog.MatchesIgnoresQueryCase | app.js:595-599 | the case of the query does not change which products match |
| Catalog.Search | app.js:591-599 | a blank query gives the whole catalog; otherwise the result keeps catalog order and holds exactly the products whose name, description or category contains the lower-cased query |
| Cart.IndexOf | app.js:428 | the index is -1 exactly when no line has the key; otherwise it is the first line with the key |
| Cart.IndexOfUnique | app.js:406 | when keys are unique, the line found is the only one with that key |
| Cart.Snapshot | app.js:412-420 | a new line copies the product's name, price, currency and image, with the given size and quantity |
| Cart.AddLine | app.js:406-421 | a new key appends one snapshot line; an existing key adds to that line's quantity and leaves every other line alone |
| Cart.AddLineKeepsUniqueKeys | app.js:406-421 | adding never creates a second line for a key |
| Cart.AddLineKeepsPositive | app.js:410-420 | adding a quantity of at least one keeps every quantity positive |
| Cart.Add | app.js:403-425 | an unknown product leaves the cart as it was; a known one is added; unique keys are kept |
| Cart.Remove | app.js:427-439 | an absent key changes nothing; otherwise exactly the first line with the key is cut out and the other lines keep their order |
| Cart.RemoveIsSubseq | app.js:431 | the cart after a removal is a subsequence of the cart before it |
| Cart.RemoveKeepsUniqueKeys | app.js:428-431 | with unique keys, removing keeps them unique and leaves no line for the removed key |
| Cart.RemoveKeepsPositive | app.js:431 | removing keeps every quantity positive |
| Cart.RemoveIsWithout | app.js:427-432 | with unique keys, removing a key is the same as filtering out every line with that key |
| Cart.UpdateQuantity | app.js:441-455 | an absent key changes nothing; a quantity of zero or less removes the line; otherwise only that line's quantity becomes the new one |
| Cart.UpdateQuantityKeepsUniqueKeys | app.js:441-450 | a quantity change keeps keys unique |
| Cart.UpdateQuantityKeepsPositive | app.js:444-447 | a quantity change keeps every quantity positive |
| Cart.ItemCount | app.js:73-80 | the badge count of an empty cart is 0; with positive quantities it is at least the number of lines, and positive exactly when the cart has lines |
| Cart.Subtotal | app.js:476-480 | the subtotal of an empty cart is 0; with positive prices and quantities every line adds at least a cent, so it is positive exactly when the cart has lines |
| Cart.AddItemCount | app.js:406-421 | an add raises the badge count by exactly the quantity added |
| Cart.AddSubtotalExisting | app.js:410 | adding to an existing line raises the subtotal by that line's price times the quantity |
| Cart.AddSubtotalNew | app.js:412-420 | adding a new line raises the subtotal by the product's price times the quantity |
| Cart.AddQuantityOf | app.js:406-421 | after an add the key is in the cart, and its quantity has grown by exactly the amount added |
| Cart.AddAllQuantity | app.js:403-421 | repeated adds of one key keep keys unique and leave one line whose quantity is the old quantity plus the sum of the adds |
| Cart.RemoveTotals | app.js:427-432 | a removal lowers the badge count by the line's quantity and the subtotal by the line's total |
| Cart.UpdateQuantityTotals | app.js:444-447 | setting a positive quantity makes it the line's quantity and moves the count and subtotal by the difference |
| Cart.CartDropdown | app.js:523-553 | an empty cart shows the empty notice; otherwise the first lines of the cart, at most three, plus a "+n more" count that together cover every line |
| Cart.Tally | app.js:478-480 | one total per line, each its price times its quantity, and the sum equal to the subtotal |
| Cart.LoadCartItems | app.js:457-521 | the cart page is empty exactly when the cart is; the line totals are price times quantity; subtotal and total are equal, since shipping is free |
| Cart.LoadCheckoutOrderSummary | app.js:608-640 | the checkout summary says "no items" exactly when the cart is empty; otherwise it has one amount per line, each price times quantity, and a total equal to the subtotal |
| PaymentFormat.GroupBy4 | app.js:894 | digits in groups of four: spaces only at every fifth position, no trailing space, and the same digits in the same order |
| PaymentFormat.FormatCardNumber | app.js:892-896 | the card field holds only digits and spaces, grouped by four, and keeps every digit that was typed |
| PaymentFormat.FormatCardNumberIdempotent | app.js:892-896 | formatting a formatted card number changes nothing |
| PaymentFormat.FormatExpiry | app.js:898-904 | below two digits, the digits alone; from two on, `MM/` and at most two more digits; never longer than five characters |
| PaymentFormat.FormatExpiryIdempotent | app.js:898-904 | formatting a formatted expiry changes nothing |
| PaymentFormat.FormatCvv | app.js:906-908 | the first four digits at most, a prefix of the digits that were typed |
| PaymentFormat.FormatCvvIdempotent | app.js:906-908 | formatting a formatted CVV changes nothing |
| Orders.Decimal | app.js:89 | `toString` of a non-negative number: at least one digit and no leading zero |
| Orders.DecimalRoundTrip | app.js:89 | reading the decimal string back gives the number |
| Orders.LastEight | app.js:89 | `slice(-8)` is the last eight characters, or the whole of a shorter string |
| Orders.OrderNumber | app.js:88-90 | `AER` followed by the last eight digits of the clock reading |
| Orders.OrderNumberLength | app.js:88-90 | from a clock reading of 10^7 ms on, order numbers are eleven characters long |
| Storefront.Storefront.constructor | app.js:56-60 | the start state: home page, empty cart, no product in focus, the whole catalog listed, no redirect |
| Storefront.Storefront.ShowPage | app.js:126-156 | an id without a section changes nothing; otherwise it becomes the current page; only the thank-you page touches the countdown, showing 5 |
| Storefront.Storefront.InitializePage | app.js:158-177 | only the thank-you hook changes state: it starts the countdown |
| Storefront.Storefront.StartRedirectCountdown | app.js:179-199 | shows 5 at once and schedules the next tick with 4 seconds left |
| Storefront.Storefront.UpdateCountdown | app.js:187-197 | shows the remaining seconds; at 0 it goes home and schedules nothing, otherwise it counts down by one and schedules itself again |
| Storefront.Storefront.Tick | app.js:196 | without a pending redirect nothing changes; otherwise the scheduled `updateCountdown` runs |
| Storefront.Storefront.FollowPageLink | app.js:689-702 | a `data-page` click cancels the redirect, leaving the number last shown as it was, then shows the page; a link to the thank-you page starts a new countdown |
| Storefront.Storefront.ContinueShopping | app.js:880-887 | cancels the redirect and goes home |
| Storefront.Storefront.FollowCategoryLink | app.js:704-717 | the listing page, then the catalog filtered by that category under the current sort; the redirect is left running |
| Storefront.Storefront.ShowProductDetail | app.js:281-339 | an unknown id changes nothing; a known one becomes the product in focus and opens the product page |
| Storefront.Storefront.FilterProducts | app.js:555-586 | the listed products become the category filter and sort of the whole catalog; nothing else changes |
| Storefront.Storefront.SearchProducts | app.js:591-605 | the listed products become the search result over the whole catalog; nothing else changes |
| Storefront.Storefront.AddToCart | app.js:403-425 | the cart becomes `Cart.Add` of the old cart; a known product gives the "added to cart!" toast; nothing else changes |
| Storefront.Storefront.BuyNow | app.js:394-398 | adds to the cart as `AddToCart` does, then opens the cart page |
| Storefront.Storefront.RemoveFromCart | app.js:427-439 | the cart becomes `Cart.Remove` of the old cart; a removed line gives a toast with its name |
| Storefront.Storefront.UpdateCartItemQuantity | app.js:441-455 | the cart becomes `Cart.UpdateQuantity` of the old cart; the toast appears only when the line is removed |
| Storefront.Storefront.ProceedToCheckout | app.js:826-836 | an empty cart is refused with an error toast and nothing changes; otherwise the checkout page is shown |
| Storefront.Storefront.ProcessCheckout | app.js:652-686 | the order carries the number, the old cart, its line totals and its subtotal; then the cart is emptied and the countdown starts on the thank-you page |
| Storefront.Storefront.CurrentView | app.js:158-176 | each page's entry hook loads its content: featured products on home, the filtered list on the listing, on the cart page one amount per line with the subtotal and total, on checkout the same amounts and the total |
| Scenarios.RacingCategory | app.js:30-47 | the racing category holds only the Pulse Racer |
| Scenarios.PriceLowOrder | app.js:572-575 | sorting by price ascending gives ids 1, 3, 2 |
| Scenarios.AddTwice | app.js:403-421 | two adds of one product and size give one line of five pairs, for 749.95 |
| Scenarios.CheckoutGuard | app.js:826-836 | Proceed to Checkout is refused with "Your cart is empty" on an empty cart, and goes to the checkout page after an add |
| Scenarios.CheckoutThenCountdown | app.js:179-199 | after checkout the page shows 5, 4, 3, 2, 1, 0 on successive ticks, goes home on the tick that shows 0, and stays there |
| Scenarios.CancelledCountdown | app.js:689-702 | a `data-page` link followed during the countdown stops the redirect: the session stays on that page through later ticks |
| Scenarios.CartIconDuringCountdown | app.js:750-753 | the cart icon opens the cart without cancelling the countdown, which still goes home on the tick that shows 0 |

## Left out

- Rendering: DOM construction, `innerHTML` and the product cards. What a page loads is modelled by `CurrentView`; how it is drawn is not.
- Missing elements: the guards that return early when an element is missing. The model assumes the document has every element.
- Missing sections: `showPage` for an id without a section is modelled as ignored. `pages` in the constructor says which sections exist.
- Toasts: their timers and animation. A toast is returned as a `Notice` value.
- Category-link delay: the 100 ms `setTimeout` before `filterProducts` is treated as immediate.
- Payment delay: the 1500 ms `setTimeout` before `processCheckout` is treated as immediate.
- Price formatting: floating point and `formatPrice`/`toFixed` are left out. Prices are integer cents.
- Success message: the random choice on the thank-you page is left out because it is randomness.
- Clock: `Date.now()` is the `now` parameter of `ProcessCheckout`.
- Persistence and logging: `loadCart`/`saveCart` (their storage code is commented out in the source) and console logging are left out.
- Forms and their validation: the validation stubs (`validateShippingForm`, `validatePaymentForm`), the newsletter and contact forms, and the shipping-to-payment step toggle are left out. They only change what is displayed.
- Product-page controls: the quantity plus and minus buttons, size and colour buttons, and the `parseInt` of their values are left out. The handlers they feed, `AddToCart` and `BuyNow`, take the quantity and size as parameters.
- Dropdown hover: showing and hiding the cart dropdown on hover is left out. Its contents are `CartDropdown`.
- Product text: the `longDescription` text of each product is left out. Only the detail page displays it, and no behaviour depends on it.
- Storefront.Storefront.StartRedirectCountdown: the model has one redirect slot, so a countdown started while another is running replaces it. In the browser both timer chains would keep running.
- Catalog.SortBy: does not state that the sort is stable. `Array.prototype.sort` is stable, but the catalog's ids are distinct and the shipped prices and stock counts are too.
- Text.ToLower: lower-cases only the ASCII letters A-Z, not the full Unicode case mapping of `toLowerCase`.
- Re-rendering: the redraw of the cart page after a removal or a quantity change, and of the listing after a search, is left out. That redraw is `CurrentView` on the new state.
