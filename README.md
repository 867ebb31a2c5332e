# Storefront checkout and display rules, in Dafny

This project models the logic of a React storefront that is more than rendering.

- **The cart totals engine** (`cartsUtility.js`):
  - `formatPrice` rounds to the nearest hundredth and writes two decimals.
  - `updateShoppingCart` recomputes the cart's four derived price fields in place, then stores a snapshot of the cart.
- **Three components that make small pure decisions:**
  - the star classifier of `RatingStars`;
  - the page-link generator of `PaginationControls`;
  - the trim-and-route rule of `ProductSearchBox`.
- **The two checkout screens:**
  - `OrderReviewScreen`: the redirect gate, the order request, what follows success or failure, the disabled button and the line totals;
  - `PaymentSelectionScreen`: the address gate, the one payment option, and saving it before moving on.
- **The API wrapper `handleAuthQuery`:** it passes every response through and logs the user out on a 401. The create-order mutation is injected into the same API slice, so placing an order goes through it too.

How the model is built:

- JavaScript numbers are exact `real`s.
- `Math.round(x)` is `Floor(x + 1/2)`.
- `toFixed(2)` writes the sign, then the magnitude rounded to hundredths, ties away from zero.
- Strings are `seq<char>`.
- What the components do to the world goes into one ordered log held by `Effects.Runtime`: navigations, dispatched actions, the order request and error toasts. This keeps orderings such as "clear the cart, then navigate" observable.
- The result of the base query's network call is a parameter; the order request goes through the same base query.
- The cart keeps both sets of price-field names the code uses:
  - `updateShoppingCart` writes `itemsTotal`, `shippingCost`, `taxAmount` and `grandTotal`;
  - the order screen reads `itemsPrice`, `shippingPrice`, `taxPrice` and `totalPrice`.
- Navigation targets are the literal strings in the components, including those the router does not declare: `/paymentSection`, `/placeorderscreen` and `/currentPage/n`.

Modules:

| module | file |
|---|---|
| `Wrappers` | `wrappers.dfy` |
| `Decimal` | `decimal.dfy` |
| `JsNumber` | `js_number.dfy` |
| `JsString` | `js_string.dfy` |
| `CartModel` | `cart_model.dfy` |
| `BaseQuery` | `base_query.dfy` |
| `Effects` | `effects.dfy` |
| `CartsUtility` | `carts_utility.dfy` |
| `RatingStars` | `rating_stars.dfy` |
| `PaginationControls` | `pagination_controls.dfy` |
| `ProductSearchBox` | `product_search_box.dfy` |
| `OrderReviewScreen` | `order_review_screen.dfy` |
| `PaymentSelectionScreen` | `payment_selection_screen.dfy` |
| `UserApiSlice` | `user_api_slice.dfy` |

## Model

| member | source | states |
|---|---|---|
| JsNumber.MathRound | frontend/src/utils/cartsUtility.js:3 | `Math.round` gives the integer n with x - 1/2 < n <= x + 1/2, so the nearest integer with a tie going up. |
| JsNumber.MathRoundOfInt | frontend/src/utils/cartsUtility.js:3 | A whole number rounds to itself. |
| JsNumber.ToFixed2 | frontend/src/screens/OrderReviewScreen.jsx:102 | `toFixed(2)` is written sign and magnitude: a '-' for a negative value, then the magnitude rounded to hundredths, a tie going up, with two digits after the point. What it promises is stated by `ToFixed2Sign`, `ToFixed2NegativeZero`, `ToFixed2ReadsBack` and `ToFixed2OfCents`. |
| JsNumber.ToFixed2OfCents | frontend/src/utils/cartsUtility.js:3 | `toFixed(2)` of an exact multiple of a hundredth, such as `Math.round(num * 100) / 100`, writes that multiple digit for digit. |
| JsNumber.ParseRenderCents | frontend/src/utils/cartsUtility.js:3 | A signed number of hundredths, once written, reads back as itself. |
| JsNumber.ToFixed2ReadsBack | frontend/src/screens/OrderReviewScreen.jsx:102 | `toFixed(2)` of any value reads back as the value's sign applied to its magnitude rounded to hundredths. |
| JsNumber.ToFixed2Sign | frontend/src/screens/OrderReviewScreen.jsx:102 | `toFixed(2)` starts with '-' if and only if the value is negative, even when its magnitude rounds to zero. |
| JsNumber.ToFixed2NegativeZero | frontend/src/screens/OrderReviewScreen.jsx:102 | A negative value above -0.005 is written "-0.00". |
| CartsUtility.FormatPrice | frontend/src/utils/cartsUtility.js:2-4 | `formatPrice(num)` writes `num` rounded once to hundredths. What it promises is stated by the three lemmas below. |
| CartsUtility.FormatPriceIsToFixed2 | frontend/src/utils/cartsUtility.js:2-4 | `formatPrice(num)` is `toFixed(2)` of `Math.round(num * 100) / 100`. |
| CartsUtility.FormatPriceNearest | frontend/src/utils/cartsUtility.js:2-4 | The price string reads back as the number of hundredths nearest to `num`, a tie going up. That number is within half a hundredth of `num`. |
| CartsUtility.FormatPriceShape | frontend/src/utils/cartsUtility.js:2-4 | The price string always has exactly two digits after a point. |
| CartsUtility.LineAmount | frontend/src/utils/cartsUtility.js:15 | A line's `(price * 100 * qty) / 100` is exactly price times quantity; the scaling cancels. |
| CartsUtility.ComputeItemsTotal | frontend/src/utils/cartsUtility.js:14-17 | The `reduce` fold yields `ItemsSum`: the line amounts added from the first line to the last, starting at 0. |
| CartsUtility.ItemsSum | frontend/src/utils/cartsUtility.js:14-17 | The items total of lines with no negative price or quantity is never negative. |
| CartsUtility.ItemsSumAppend | frontend/src/utils/cartsUtility.js:14-17 | The total of a concatenation of lines is the sum of the totals of the parts. |
| CartsUtility.ShippingFor | frontend/src/utils/cartsUtility.js:21 | The shipping charge is 0 exactly when the unrounded items total is above 100, and 10 otherwise. |
| CartsUtility.ShippingThreshold | frontend/src/utils/cartsUtility.js:21-22 | The shipping field is "0.00" if and only if the unrounded items total is strictly above 100; otherwise it is "10.00". |
| CartsUtility.ShippingBoundary | frontend/src/utils/cartsUtility.js:21-22 | A cart of exactly 100 pays "10.00" shipping; a cart of 100.01 pays "0.00". |
| CartsUtility.TaxOnUnroundedTotal | frontend/src/utils/cartsUtility.js:25-26 | The tax is taken on the unrounded items total. Items of 0.034 show "0.03" with tax "0.01", while 15% of the shown 0.03 would be "0.00". |
| CartsUtility.PartsReadBack | frontend/src/utils/cartsUtility.js:18-26 | The items, shipping and tax fields are all set. Each reads back as its own unrounded amount, rounded once to hundredths. |
| CartsUtility.GrandTotalReadsBack | frontend/src/utils/cartsUtility.js:29-30 | The grand total field reads back as unrounded items + shipping + unrounded tax, rounded once to hundredths. |
| CartsUtility.GrandTotalWithinOneCent | frontend/src/utils/cartsUtility.js:29-30 | The grand total's hundredths differ by at most one from the sum of the three parts' hundredths. |
| CartsUtility.GrandTotalNotSumOfParts | frontend/src/utils/cartsUtility.js:18-30 | The grand total need not equal the sum of the shown parts: items "0.02", shipping "10.00" and tax "0.00" give grand total "10.03". |
| CartsUtility.WithTotals | frontend/src/utils/cartsUtility.js:18-30 | Writing the totals sets all four derived fields and keeps the items, address and payment method. |
| CartsUtility.UpdatedCart | frontend/src/utils/cartsUtility.js:14-30 | The updated cart keeps its items and has all four derived fields set. |
| CartsUtility.EmptyCartTotals | frontend/src/utils/cartsUtility.js:14-30 | An empty cart gets items "0.00", shipping "10.00", tax "0.00" and grand total "10.00". |
| CartsUtility.UpdatedCartFrame | frontend/src/utils/cartsUtility.js:11-35 | Recomputing changes nothing but the four derived fields. |
| CartsUtility.WithTotalsTwice | frontend/src/utils/cartsUtility.js:18-30 | Writing the derived fields twice for the same total is writing them once. |
| CartsUtility.UpdatedCartIdempotent | frontend/src/utils/cartsUtility.js:11-36 | Updating an updated cart changes nothing. |
| CartsUtility.UpdateShoppingCart | frontend/src/utils/cartsUtility.js:11-36 | The method assigns only the four derived fields of the state object and the stored snapshot. The new state is the old one with the totals recomputed from its items. The stored snapshot equals the new state, and the same object is returned. |
| PaginationControls.PageLink | frontend/src/components/PaginationControls.jsx:21-27 | Every page link is an absolute path. |
| Decimal.NatToString | frontend/src/components/PaginationControls.jsx:24-26 | A page number is written as a non-empty digit string with no leading zero. |
| Decimal.StringToNatOfNatToString | frontend/src/components/PaginationControls.jsx:24-26 | The written page number reads back as the number. |
| Decimal.NatToStringInjective | frontend/src/components/PaginationControls.jsx:24-26 | Different numbers are written differently. |
| JsString.Trim | frontend/src/components/ProductSearchBox.jsx:23-24 | `trim()` returns a contiguous piece of its input with no whitespace at either end. Only whitespace lies before and after that piece. |
| JsString.TrimEmptyIffAllWhitespace | frontend/src/components/ProductSearchBox.jsx:23 | The trimmed keyword is empty if and only if the keyword is all whitespace. |
| JsString.TrimOfTrimmed | frontend/src/components/ProductSearchBox.jsx:24 | A string with no edge whitespace is its own trim. |
| JsString.TrimIdempotent | frontend/src/components/ProductSearchBox.jsx:24 | Trimming twice is trimming once. |
| RatingStars.RenderStar | frontend/src/components/RatingStars.jsx:13-21 | A star is full if and only if value >= k. It is half if and only if k - 0.5 <= value < k. It is empty if and only if value < k - 0.5. |
| RatingStars.Rating | frontend/src/components/RatingStars.jsx:25-29 | Exactly five stars are rendered, for thresholds 1 to 5 in that order. |
| RatingStars.RatingShape | frontend/src/components/RatingStars.jsx:13-29 | The row is always full stars, then at most one half star, then empty stars. The counts are read off the value. |
| RatingStars.FullStarsPrefix | frontend/src/components/RatingStars.jsx:13-21 | Only full stars come before a full star. |
| RatingStars.HalfStarPosition | frontend/src/components/RatingStars.jsx:13-21 | Everything before a half star is full and everything after it is empty, so at most one half star appears. |
| RatingStars.WholeRating | frontend/src/components/RatingStars.jsx:13-29 | A whole rating n from 0 to 5 shows n full stars, then 5 - n empty ones, and no half star. |
| RatingStars.ThreeAndAHalf | frontend/src/components/RatingStars.jsx:13-29 | A rating of 3.5 shows full, full, full, half, empty. |
| PaginationControls.KeywordOrDefault | frontend/src/components/PaginationControls.jsx:13 | An absent keyword defaults to ''. |
| PaginationControls.PageItems | frontend/src/components/PaginationControls.jsx:15-30 | Nothing is rendered if and only if pages <= 1. Otherwise there are exactly `pages` items, keyed and captioned 1 to pages in order. Each item is active if and only if its number equals `page`. |
| PaginationControls.ActiveCountOfFirst | frontend/src/components/PaginationControls.jsx:28 | Among the first m items, one is active when 1 <= page <= m, and none otherwise. |
| PaginationControls.ExactlyOneActive | frontend/src/components/PaginationControls.jsx:28 | Exactly one item is active if and only if 1 <= page <= pages. Never more than one is. |
| PaginationControls.AdminLinks | frontend/src/components/PaginationControls.jsx:22-26 | For an admin, item n links to `/admin/productlist/n`, and the keyword does not change the output. |
| PaginationControls.SearchLinks | frontend/src/components/PaginationControls.jsx:22-24 | For a shopper with a non-empty keyword, item n links to `/search/{keyword}/currentPage/n`. |
| PaginationControls.PlainLinks | frontend/src/components/PaginationControls.jsx:13-25 | For a shopper with no keyword or the default empty one, item n links to `/currentPage/n`. |
| PaginationControls.LinkEndsWithPageNumber | frontend/src/components/PaginationControls.jsx:21-27 | Every link is its listing's prefix followed by the page number, and the number reads back as the page. |
| PaginationControls.LinksDistinct | frontend/src/components/PaginationControls.jsx:21-27 | Two different pages of one listing never share a link. |
| PaginationControls.ThreePages | frontend/src/components/PaginationControls.jsx:15-30 | Three pages with page 2 current give `/currentPage/1`, `/currentPage/2` and `/currentPage/3`; only the second is active. |
| ProductSearchBox.SearchTarget | frontend/src/components/ProductSearchBox.jsx:23-28 | A submit goes to `/search/` + the trimmed keyword when that is non-empty, and to `/` otherwise. |
| ProductSearchBox.HomeIffBlank | frontend/src/components/ProductSearchBox.jsx:23-27 | A submit goes home if and only if the keyword is empty or only whitespace. |
| ProductSearchBox.SearchKeywordTrimmed | frontend/src/components/ProductSearchBox.jsx:24 | The keyword in a search path is non-empty and has no whitespace at either end. It is one contiguous piece of what was typed. |
| ProductSearchBox.SearchTargetStable | frontend/src/components/ProductSearchBox.jsx:23-24 | Submitting the trimmed keyword leads to the same path. |
| ProductSearchBox.ProductSearchBox.constructor | frontend/src/components/ProductSearchBox.jsx:14 | The input starts as the URL keyword, or '' when there is none. |
| ProductSearchBox.ProductSearchBox.OnChange | frontend/src/components/ProductSearchBox.jsx:36 | Typing replaces the input's text. |
| ProductSearchBox.ProductSearchBox.SubmitHandler | frontend/src/components/ProductSearchBox.jsx:21-29 | A submit logs exactly one navigation, to `SearchTarget` of the keyword. After a non-blank submit the input is ''; after a blank one it is unchanged. |
| OrderReviewScreen.RedirectTarget | frontend/src/screens/OrderReviewScreen.jsx:28-34 | A missing or empty address goes to `/shipping`. With an address but no payment method, the target is `/paymentSection`. With both there is no redirect. Each case holds in both directions. |
| OrderReviewScreen.AddressCheckedFirst | frontend/src/screens/OrderReviewScreen.jsx:29-30 | When both are missing, the address wins. |
| OrderReviewScreen.CheckoutGate | frontend/src/screens/OrderReviewScreen.jsx:28-34 | The gate effect logs exactly the redirect target's navigation, or nothing. |
| OrderReviewScreen.OrderPayload | frontend/src/screens/OrderReviewScreen.jsx:43-51 | The request copies the items, address, payment method and the four `*Price` fields from the cart unchanged. |
| OrderReviewScreen.PayloadIgnoresComputedTotals | frontend/src/screens/OrderReviewScreen.jsx:43-51 | Recomputing the cart totals leaves the request as it was: it carries none of the fields the engine writes. |
| OrderReviewScreen.PayloadDeterminedByReadFields | frontend/src/screens/OrderReviewScreen.jsx:43-51 | Two carts give the same request if and only if they agree on the seven copied fields. |
| OrderReviewScreen.PlaceOrderEffects | frontend/src/screens/OrderReviewScreen.jsx:40-61 | Placing an order always sends the request first, then one or two more effects follow. |
| OrderReviewScreen.ClearOnlyOnSuccess | frontend/src/screens/OrderReviewScreen.jsx:53-57 | The cart is cleared if and only if the request succeeds. The clear is immediately followed by the navigation to `/orderDetails/{id}`. |
| OrderReviewScreen.FailureNeverNavigates | frontend/src/screens/OrderReviewScreen.jsx:58-60 | A failed request, whatever its status, neither clears the cart nor navigates, and its last effect is the error toast. |
| OrderReviewScreen.FailureOnlyToasts | frontend/src/screens/OrderReviewScreen.jsx:58-60 | A failure other than 401 is followed by one error toast and nothing else. |
| OrderReviewScreen.UnauthorizedOrderLogsOut | frontend/src/slices/userApiSlice.js:22-24 | The create-order mutation goes through the user API's base query, so a 401 failure is the request, then a logout, then the error toast. |
| OrderReviewScreen.PlaceOrderDisabled | frontend/src/screens/OrderReviewScreen.jsx:154 | The place-order button is disabled when the cart has no items. |
| OrderReviewScreen.HandlePlaceOrder | frontend/src/screens/OrderReviewScreen.jsx:40-61 | The handler runs only while the button is enabled. It appends exactly `PlaceOrderEffects` to the log, with the auth wrapper's logout between the request and the screen's own effects. The request it sends carries at least one item. |
| OrderReviewScreen.LineTotalText | frontend/src/screens/OrderReviewScreen.jsx:102 | The line total is written with a point followed by exactly two digits at its end. |
| OrderReviewScreen.LineTotalMatchesFormatPrice | frontend/src/screens/OrderReviewScreen.jsx:102 | For a line worth zero or more, the displayed line total equals `formatPrice` of the line's amount. |
| OrderReviewScreen.LineTotalNegativeTie | frontend/src/screens/OrderReviewScreen.jsx:102 | For a negative line the two roundings part: a line of -0.005 is shown as "-0.01" but formatted as "0.00". |
| PaymentSelectionScreen.PaymentRedirect | frontend/src/screens/PaymentSelectionScreen.jsx:29-34 | The screen redirects, to `/shipping`, if and only if the address is missing or empty. |
| PaymentSelectionScreen.GatesAgreeOnAddress | frontend/src/screens/PaymentSelectionScreen.jsx:29-34 | A cart without an address is sent to the same place by both checkout gates. |
| PaymentSelectionScreen.PaymentSelectionScreen.constructor | frontend/src/screens/PaymentSelectionScreen.jsx:23 | The selection starts as 'PayPal'. |
| PaymentSelectionScreen.PaymentSelectionScreen.AddressGate | frontend/src/screens/PaymentSelectionScreen.jsx:29-34 | The gate effect logs one navigation to `/shipping` when the address is missing, and nothing otherwise. |
| PaymentSelectionScreen.PaymentSelectionScreen.OnChange | frontend/src/screens/PaymentSelectionScreen.jsx:60-69 | Choosing the only radio option keeps the selection 'PayPal'. |
| PaymentSelectionScreen.PaymentSelectionScreen.HandleSubmit | frontend/src/screens/PaymentSelectionScreen.jsx:42-46 | A submit saves the selected method, which is always 'PayPal', then navigates to `/placeorderscreen`, in that order. |
| UserApiSlice.AuthEffects | frontend/src/slices/userApiSlice.js:22-25 | A response causes at most one effect. It is a logout if and only if the response is an error with status 401, and nothing otherwise. |
| UserApiSlice.OnlyUnauthorizedLogsOut | frontend/src/slices/userApiSlice.js:22 | Successes and non-401 errors never log out. |
| UserApiSlice.HandleAuthQuery | frontend/src/slices/userApiSlice.js:17-28 | The base query's response is returned unchanged, and the log grows by exactly `AuthEffects` of it. |
| UserApiSlice.OneLogoutPer401 | frontend/src/slices/userApiSlice.js:22-24 | Over any run of queries there is one logout per 401 response, and nothing else is dispatched. |

## Left out

- Binary floating point. Prices, rounding and `toFixed` are over exact reals. Double-rounding artefacts of `price * 100 * qty`, of the sums and of `Math.round` are not reproduced.
- JsNumber.ToFixed2: does not model JavaScript's exponent notation for magnitudes of 1e21 and above.
- JsNumber.MathRound: the -0 that `Math.round` returns for values in [-0.5, 0) is not modelled. `toFixed` writes -0 as "0.00", so formatted prices are unaffected.
- `localStorage` and JSON serialisation. The stored cart is a value copy of the state object (`CartsUtility.LocalStorage.cart`).
- Reading the stored cart back happens in the cart slice, which is not part of this model. The session-expiry check in `App.js` depends on the clock and is not modelled either.
- The cart and auth reducers (`cartSlice.js`, `authSlice.js`) are not part of this model. `clearCartItems`, `savePaymentMethod` and `logoutUserAction` are recorded as dispatched actions in the effect log. Their effect on the store is not modelled.
- Who sets the `itemsPrice`, `shippingPrice`, `taxPrice` and `totalPrice` fields that the order request reads is therefore not modelled either.
- The network call of the base query (`fetchBaseQuery`) is a parameter: it yields a `BaseQuery.QueryResult`, data or an error with its status. For the create-order mutation of `orderApiSlice.js` the data stands for the new order's `_id`. A response body without an `_id` is not modelled.
- The `err` passed to `toast.error` is the rejected mutation's error object. How the toast library renders an object is not modelled.
- RTK Query caching, tag declarations and endpoint configuration are library behaviour and are not modelled. This covers the 'Product' tag type, while the endpoints use 'Products'.
- React's asynchronous state updates and effect re-runs. `setSearchKeyword` and `setSelectedPaymentMethod` assign at once. A gate effect is one call of `CheckoutGate` or `AddressGate`.
- Rendering: JSX, icons, the rating text and colour, the loading and error displays, and `e.preventDefault()`.
- Routing: the router and the route guards are not modelled. Paths are the components' literal strings, not checked against declared routes.
- RatingStars.RenderStar: `value` is a real number. An undefined or NaN rating, which renders five empty stars in JavaScript, is not modelled.
- PaginationControls.PageItems: `pages` is an integer. A fractional `pages` above 1, for which `Array(pages)` throws, is not modelled. The keyword is placed in the path verbatim, as the template literal does.
- OrderReviewScreen.RedirectTarget: the cart always has a shipping-address record. An undefined `shippingAddress`, which throws in JavaScript, is not modelled.
- `CartsUtility.GrandTotalWithinOneCent` is stated on hundredths. The link to the stored strings is `CartsUtility.PartsReadBack` and `CartsUtility.GrandTotalReadsBack`.
