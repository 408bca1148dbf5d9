# MERN e-commerce core, modelled in Dafny

This project models the core of a MERN e-commerce shop. The shop has an Express
and Mongoose backend, and a React and Redux Toolkit storefront with an admin
area. The model covers:

- **Backend controllers.** Products and their embedded reviews (upsert and
  delete, with the average rating and the review count kept in step), the
  product listing page, orders (create, read, list with a grand total,
  status updates that decrement stock, delete), and the demo payment
  gateway. The error middleware turns a raised error into an HTTP response.
  The database is a `Store.Database` object holding two maps, products and
  orders, which the handlers update in place.
- **Storefront state.** The cart, user, admin, order and review Redux slices
  are classes whose methods are the reducer cases. Each method states its
  whole new state. The cart and user slices also mirror part of their state
  in a `BrowserStorage.LocalStorage` object.
- **Storefront components.** The cart line buttons and the cart totals, the
  quantity selector of the product page, the page selector of the product
  list, and the card number, expiry and CVV input masks of the payment form.
- **Admin pages.** The products, orders and users tables share filter
  buttons, a search box, eight rows to a page and page buttons. The pages
  also hold the product form and the order-status form, with the guards
  that decide whether a request is dispatched.

HTTP answers are `Wrappers.Result` values: `Ok(value)`, or
`Err(status, message)` for an error raised through `next(new HandleError(...))`.
`ErrorMiddleware.Respond` then shows how such an error becomes the JSON
response the client sees.

The order-status update follows the code in
`backend/controller/orderController.js`, not its documentation:

- every successful update decrements the stock of each line item, not only
  a delivery;
- the stock is not floored at zero;
- a line item whose product is missing is not skipped. Its `updateQuantity`
  call reaches an undefined `next`, which the error middleware answers with
  500, and the order is not saved. The calls for the other line items were
  all started together, so every item whose product is stored is still
  decremented, before or after the missing one.

Integers, prices, ratings and timestamps are unbounded `int` or `real`.
JavaScript `toLowerCase` and `Number(...)` on typed text are parameters
(`lower`, `toNumber`). So are ids, the clock and the random transaction id.

## Model

| member | source | states |
|---|---|---|
| Lists.Filter | frontend/src/Admin/AdminProducts.jsx:108-110 | `Array.filter`: keeps the elements satisfying the predicate and no others, never lengthens the list |
| Lists.FilterAppend | frontend/src/Admin/AdminProducts.jsx:108-110 | filtering a concatenation filters each part and concatenates the results |
| Lists.FilterAll | frontend/src/Admin/AdminProducts.jsx:108-110 | a filter every element passes returns the list unchanged |
| Lists.Without | frontend/src/features/admin/adminSlice.js:132-137 | removing by id: keeps exactly the elements whose key differs from the removed id |
| Lists.WithoutAbsent | backend/controller/productController.js:153-167 | removing an id no element has leaves the list unchanged |
| Lists.WithoutPresent | backend/controller/productController.js:153 | removing an id that some element has makes the list strictly shorter |
| Lists.FilterDrops | backend/controller/productController.js:153 | a filter that some element fails makes the list strictly shorter |
| Lists.WithoutAppend | backend/controller/productController.js:153-167 | removing by id distributes over concatenation |
| Lists.FindIndex | frontend/src/features/cart/cartSlice.js:57-70 | `findIndex`: -1 exactly when no element has the key, otherwise the first index with it |
| Lists.ReplaceFirst | frontend/src/features/admin/adminSlice.js:122-128 | `findIndex` then assignment: the same length, the first element with the new value's key replaced, all others kept |
| Lists.ReplaceFirstKeys | frontend/src/features/admin/adminSlice.js:157-163 | the replacement keeps every key, keeps keys unique, changes nothing when the key is absent, and otherwise contains the new value |
| Lists.FilterUnique | frontend/src/features/order/orderSlice.js:140-150 | filtering a list with unique keys keeps them unique |
| Lists.WithoutUnique | frontend/src/features/cart/cartSlice.js:37-40 | removing by id keeps keys unique |
| Lists.SliceIndex | frontend/src/Admin/AdminProducts.jsx:113 | how `slice` resolves an index: in range unchanged, past the end clamped, negative counted from the end and clamped at 0 |
| Lists.Distinct | frontend/src/Admin/AdminProducts.jsx:106 | `new Set`: the same elements as the input, each once |
| Lists.FirstIndex | frontend/src/Admin/AdminProducts.jsx:106 | the position where an element first occurs |
| Lists.DistinctInFirstAppearanceOrder | frontend/src/Admin/AdminProducts.jsx:106 | a set keeps its elements in the order they first appear |
| Text.DigitsOf | frontend/src/Cart/Payment.jsx:30 | `replace(/\D/g, '')`: only digits and never longer |
| Text.StripWhitespace | backend/controller/paymentController.js:17 | `replace(/\s/g, '')`: no white space left and never longer |
| Text.StripWhitespaceNoop | backend/controller/paymentController.js:17 | stripping text that has no white space returns it unchanged |
| Text.DigitsOfNoop | frontend/src/Cart/Payment.jsx:30 | dropping non-digits from a digit string returns it unchanged |
| Text.IncludesIff | frontend/src/Admin/AdminProducts.jsx:108-110 | `includes` holds exactly when the text occurs at some position |
| Text.IncludesEmpty | frontend/src/Admin/AdminProducts.jsx:108-110 | every string includes the empty search |
| Paging.CeilDiv | backend/controller/productController.js:33 | `Math.ceil(n / size)`: the pages hold all n rows, the last page is not empty, and there are no pages exactly when there are no rows |
| Paging.Page | backend/controller/productController.js:41-42 | one page holds at most `size` rows |
| Paging.PagesUpToPrefix | backend/controller/productController.js:41-42 | the first k pages together are the first `k * size` rows |
| Paging.PagesPartition | backend/controller/productController.js:33-42 | the pages up to the page count give back every row in order, and later pages are empty |
| Paging.PageInRange | backend/controller/productController.js:33-46 | a page within the count holds one to `size` rows, namely its slice |
| Paging.SliceIsPage | frontend/src/Admin/AdminProducts.jsx:113 | the `slice((page - 1) * size, page * size)` of the admin tables is that page |
| ErrorMiddleware.StatusOrDefault | backend/middleware/error.js:4 | the status is the error's own when set and non-zero, otherwise 500 |
| ErrorMiddleware.MessageOrDefault | backend/middleware/error.js:5 | the message is the error's own when non-empty, otherwise "Internal Server Error" |
| ErrorMiddleware.Respond | backend/middleware/error.js:3-23 | a cast error gives 404 "Resource not found. Invalid: path", a duplicate key (code 11000) gives 400 "Duplicate ... entered", anything else gives its status and message or the defaults; `success` is always false |
| ErrorMiddleware.HandleErrorPassesThrough | backend/middleware/error.js:3-23 | a `HandleError(message, status)` reaches the client exactly as raised |
| ErrorMiddleware.ErrorResponse | backend/middleware/error.js:19-22 | an `Err` result of a handler is answered through the middleware |
| ErrorMiddleware.RuntimeErrorIs500 | backend/middleware/error.js:4-5 | a runtime error without a status is answered with 500 and its own message |
| Store.Database.constructor | backend/controller/orderController.js:1-2 | the database starts with the given products and orders |
| ProductController.MeanRating | backend/controller/productController.js:123-127 | no contract: the definition (sum over count, 0 without reviews); its properties are in `MeanAfterAppend` and `MeanBounds` |
| ProductController.WithReviews | backend/controller/productController.js:122-127 | after a review change, `numberOfReviews` and `ratings` agree with the new review list; every other field is unchanged |
| ProductController.WithOwnReviews | backend/controller/productController.js:122-127 | recomputing the aggregates of a consistent product changes nothing |
| ProductController.RatingSumAppend | backend/controller/productController.js:123-126 | the rating sum of a concatenation is the sum of the parts |
| ProductController.MeanAfterAppend | backend/controller/productController.js:119-127 | the mean after appending a review is (old sum + new rating) / (count + 1) |
| ProductController.RatingSumBounds | backend/controller/productController.js:123-126 | ratings between lo and hi give a sum between count × lo and count × hi |
| ProductController.MeanBounds | backend/controller/productController.js:122-127 | the average rating stays between the lowest and highest bound of the ratings |
| ProductController.SumRatings | backend/controller/productController.js:123-126 | the `forEach` accumulation loop computes the rating sum |
| ProductController.UpdateByUser | backend/controller/productController.js:112-116 | the same length; each review by the user gets the new rating and comment, every other review is kept |
| ProductController.Upsert | backend/controller/productController.js:111-118 | without an earlier review by the user one review is appended at the end; with one, every review by the user is edited in place and nothing else changes; afterwards the user has a review |
| ProductController.UpsertOnePerUser | backend/controller/productController.js:111-118 | when each user has at most one review, a submission keeps it so |
| ProductController.EditUserReviews | backend/controller/productController.js:112-116 | the `forEach` loop that edits the user's reviews computes `UpdateByUser` |
| ProductController.UpsertReviewList | backend/controller/productController.js:107-121 | the handler's loop over the reviews computes `Upsert` |
| ProductController.CreateReviewForProduct | backend/controller/productController.js:99-133 | an unknown product gives 400 "Product not found" and no change; otherwise the product is stored with the upserted reviews and recomputed aggregates; orders are untouched |
| ProductController.GetProductReviews | backend/controller/productController.js:136-145 | 400 "Product not found" exactly for an unknown product, otherwise its reviews |
| ProductController.DeleteReview | backend/controller/productController.js:148-172 | an unknown product gives 400 and no change; a query without a review id gives 500 with no change when the product has reviews (the filter callback throws); otherwise the reviews with that id are removed, the aggregates are recomputed and the product is saved |
| ProductController.DeleteUnknownReviewIsNoop | backend/controller/productController.js:153-167 | deleting a review id that the product does not have leaves a consistent product unchanged |
| ProductController.FirstReviewOfFour | backend/controller/productController.js:111-127 | a first review of 4 is appended and the average becomes 4 |
| ProductController.ResubmissionOfTwo | backend/controller/productController.js:112-127 | the same user resubmitting 2 edits the review in place and the average becomes 2 |
| ProductController.SecondUserOfFive | backend/controller/productController.js:111-127 | a second user's 5 is appended and the average becomes 3.5 |
| ProductController.ReviewScenario | backend/controller/productController.js:99-133 | the three submissions in turn give ratings 4, 2, 3.5 and review counts 1, 1, 2 |
| ProductController.ApplyPatch | backend/controller/productController.js:58-61 | the id is kept; each of the ten stored fields (name, description, price, category, stock, images, reviews, ratings, number of reviews, owner) takes the body's value when the body carries it and keeps its stored value otherwise |
| ProductController.PatchKeepsAggregates | backend/controller/productController.js:58-61 | a body that carries none of reviews, ratings or number of reviews keeps the reviews and the consistency of the two derived fields |
| ProductController.PatchCanDesyncAggregates | backend/controller/productController.js:58-61 | a body that carries only a rating of 5 for a product without reviews leaves the average out of step with its empty review list |
| ProductController.UpdateProduct | backend/controller/productController.js:58-71 | an unknown id gives 404 "Product not found" and no change; otherwise the product with every field the body carries written (any stored field but the id) is stored, returned, and nothing else changes |
| ProductController.DeleteProduct | backend/controller/productController.js:74-83 | an unknown id gives 404 and no change; otherwise exactly that product is removed |
| ProductController.GetSingleProduct | backend/controller/productController.js:86-95 | 404 exactly for an unknown id, otherwise the stored product |
| ProductController.PageNumber | backend/controller/productController.js:34 | `Number(page) \|\| 1`: a missing or zero page is 1, any other number is kept |
| ProductController.GetAllProducts | backend/controller/productController.js:21-55 | no matching products gives 404 "No products found"; a page past the last gives 404 "Page not found"; otherwise the count, four per page, the page count, the page, and one to four products that are exactly that page's slice (the first page's for a page below 1) |
| OrderController.NewOrder | backend/controller/orderController.js:9-21 | the order gets the given id, the user, `paidAt` now, the initial status and no delivery date |
| OrderController.NewOrderKeepsSubmission | backend/controller/orderController.js:9-21 | the stored order holds exactly the submitted shipping, items, payment and prices |
| OrderController.CreateNewOrder | backend/controller/orderController.js:8-27 | the new order is added under its fresh id and returned; nothing else changes |
| OrderController.GetSingleOrder | backend/controller/orderController.js:30-39 | 404 "Order not found" exactly for an unknown id, otherwise the order |
| OrderController.MapTotalRemove | backend/controller/orderController.js:58-61 | the sum over all orders is any one order's price plus the sum over the rest, whichever order is taken first |
| OrderController.MapTotalInsert | backend/controller/orderController.js:8-27 | adding an order adds its price to the grand total |
| OrderController.MapTotalDelete | backend/controller/orderController.js:103-118 | deleting an order subtracts its price from the grand total |
| OrderController.ListingStep | backend/controller/orderController.js:58-61 | visiting one more stored order keeps every visited order listed once, under its own id |
| OrderController.ListingDone | backend/controller/orderController.js:55-68 | once every order is visited, the listed ids are exactly the stored ids and every stored order is listed |
| OrderController.GetAllOrders | backend/controller/orderController.js:55-68 | the list has one entry per stored order, read from pairwise distinct ids that are exactly the stored ids, so every order is listed exactly once; the accumulated total is the sum of the listed prices and of all stored prices |
| OrderController.WithStatus | backend/controller/orderController.js:82-86 | the status is replaced; `deliveredAt` is set to now exactly on "Delivered" and otherwise kept; nothing else changes |
| OrderController.NewOrderConsistent | backend/controller/orderController.js:9-21 | a new order has a delivery date exactly when it is delivered |
| OrderController.WithStatusConsistent | backend/controller/orderController.js:77-86 | a status update of an undelivered order keeps "delivery date iff delivered" |
| OrderController.Decrement | backend/controller/orderController.js:97-98 | one product's stock goes down by the quantity, everything else is unchanged |
| OrderController.DecrementAll | backend/controller/orderController.js:80-81 | each product's stock goes down by the total quantity of its line items, with no floor |
| OrderController.Stocked | backend/controller/orderController.js:80-95 | the line items whose product is stored, in order: an item is kept exactly when its product is stored, and with every product stored it is all the items |
| OrderController.StockedStep | backend/controller/orderController.js:80-81 | one more line item joins the stocked ones exactly when its product is stored |
| OrderController.AllStockedStep | backend/controller/orderController.js:80-81 | the items up to one more are all stocked exactly when those before are and its product is stored |
| OrderController.DecrementAllAppend | backend/controller/orderController.js:80-97 | decrementing one more stocked line item is one more `Decrement`, applied last |
| OrderController.UpdateQuantity | backend/controller/orderController.js:92-100 | a missing product ends in 500 "next is not defined" with no change; otherwise its stock is decremented and saved |
| OrderController.DecrementItems | backend/controller/orderController.js:80-81 | every line item whose product is stored is decremented, wherever a missing one stands; the result is Ok exactly when every product is stored, and otherwise 500 "next is not defined"; the orders are untouched |
| OrderController.MissingProductHoldsBackNothing | backend/controller/orderController.js:80-98 | items [A missing, B with stock 5, quantity 1]: the update fails, and B still ends at 4 |
| OrderController.UpdateOrderStatus | backend/controller/orderController.js:72-91 | unknown order 404, delivered order 400 " Have already delivered this order", both with no change; a missing product gives 500 with the order unsaved, and every other stocked item still decremented; otherwise all stock is decremented and the order is saved with its new status |
| OrderController.StockGoesNegative | backend/controller/orderController.js:97 | a stock of 0 ordered once becomes -1: the stock is not floored |
| OrderController.DeleteOrder | backend/controller/orderController.js:103-118 | unknown order 404; undelivered order 400 "This order is not delivered yet"; a delivered order is removed; products untouched |
| PaymentController.ValidCardNumber | backend/controller/paymentController.js:19 | no contract: the definition (exactly 16 ASCII digits); used by `ProcessDemoPayment` and `SubmittedCardAccepted` |
| PaymentController.ValidCvv | backend/controller/paymentController.js:23 | no contract: the definition (3 or 4 ASCII digits); used by `ProcessDemoPayment` and `FilterCvvShape` |
| PaymentController.Declined | backend/controller/paymentController.js:28 | no contract: the definition (the cleaned card ends in 0000); its property is in `DemoDeclineRule` |
| PaymentController.ProcessDemoPayment | backend/controller/paymentController.js:9-47 | checks in order: a missing field, a card that is not 16 digits after stripping white space, a CVV that is not 3 or 4 digits, a card ending in 0000; each gives its own 400 message; otherwise a receipt with the transaction id, the amount and "Payment successful!" |
| PaymentController.StripWhitespaceIdempotent | backend/controller/paymentController.js:17 | stripping white space twice is stripping it once |
| PaymentController.CardWhitespaceIrrelevant | backend/controller/paymentController.js:17-33 | sending the card number with or without its spaces gives the same answer |
| PaymentController.DemoDeclineRule | backend/controller/paymentController.js:28-46 | a valid submission succeeds exactly when the last four digits are not 0000 |
| PaymentController.CreateOrderAfterPayment | backend/controller/paymentController.js:50-78 | the order is stored under its fresh id and returned with "Order placed successfully!"; products untouched |
| PaymentForm.Take | frontend/src/Cart/Payment.jsx:30 | `slice(0, n)`: the first n characters, or all when shorter |
| PaymentForm.GroupFours | frontend/src/Cart/Payment.jsx:31 | groups of four joined by spaces: position i holds a space exactly when i % 5 == 4, otherwise the input character it shows; the length grows by one space per further group |
| PaymentForm.FirstGroupThenRest | frontend/src/Cart/Payment.jsx:31 | a first group, a space and the grouped rest keep the position rule |
| PaymentForm.FilterGroup | frontend/src/Cart/Payment.jsx:50 | a filter that drops the separator but keeps the group's characters removes exactly that space |
| PaymentForm.FilterGroupFours | frontend/src/Cart/Payment.jsx:50 | such a filter undoes the grouping |
| PaymentForm.DigitsOfGroupFours | frontend/src/Cart/Payment.jsx:30-31 | stripping white space, or non-digits, from grouped digits gives the digits back |
| PaymentForm.FormatCardNumber | frontend/src/Cart/Payment.jsx:29-33 | no contract: the definition (digits only, at most 16, grouped in fours); its properties are in `FormatCardNumberShape` and `FormatCardNumberIdempotent` |
| PaymentForm.FormatCardNumberShape | frontend/src/Cart/Payment.jsx:29-33 | the field holds only digits and single spaces at every fifth position, at most 16 digits and 19 characters |
| PaymentForm.SubmittedCard | frontend/src/Cart/Payment.jsx:50 | no contract: the definition (white space stripped); its properties are in `SubmittedCardIsDigits` and `SubmittedCardAccepted` |
| PaymentForm.SubmittedCardIsDigits | frontend/src/Cart/Payment.jsx:29-33 | the sent card number is exactly the first 16 digits typed |
| PaymentForm.FormatCardNumberIdempotent | frontend/src/Cart/Payment.jsx:29-33 | reformatting the field's own value leaves it unchanged |
| PaymentForm.SubmittedCardAccepted | frontend/src/Cart/Payment.jsx:50 | the sent card number passes the server's 16-digit check exactly when 16 or more digits were typed |
| PaymentForm.FormatExpiry | frontend/src/Cart/Payment.jsx:36-40 | no contract: the definition (at most 4 digits, `/` after the second when there are more); its properties are in `FormatExpiryShape` |
| PaymentForm.FormatExpiryShape | frontend/src/Cart/Payment.jsx:36-40 | at most 5 characters; a `/` exactly when more than 2 digits were kept, then at position 2 with the digits around it |
| PaymentForm.FilterCvv | frontend/src/Cart/Payment.jsx:210 | no contract: the definition (the first up to 4 digits); its properties are in `FilterCvvShape` |
| PaymentForm.FilterCvvShape | frontend/src/Cart/Payment.jsx:210 | the CVV is the first up to 4 digits typed, and passes the server's check exactly when 3 or more digits were typed |
| CartItemControls.LineTotal | frontend/src/Cart/CartItem.jsx:38 | no contract: the definition (price times quantity, before `toFixed(2)`); its property is in `CartTotals.SubtotalIsSumOfLines` |
| CartItemControls.IncreaseQty | frontend/src/Cart/CartItem.jsx:9-12 | a request for quantity + 1 exactly when the quantity is below the stock |
| CartItemControls.DecreaseQty | frontend/src/Cart/CartItem.jsx:14-17 | a request for quantity - 1 exactly when the quantity is above 1 |
| CartItemControls.RemoveRequest | frontend/src/Cart/CartItem.jsx:19-21 | removal of this line's product |
| CartItemControls.StepsStayInStock | frontend/src/Cart/CartItem.jsx:9-17 | from a quantity between 1 and the stock, every requested quantity stays between 1 and the stock |
| CartItemControls.RefusedStepsAtTheEdge | frontend/src/Cart/CartItem.jsx:9-17 | a step is refused only at the stock or at 1 |
| CartTotals.Subtotal | frontend/src/Cart/Cart.jsx:13 | no contract: the definition (the `reduce` over quantity times price); its properties are in `SubtotalIsSumOfLines`, `SubtotalAppend` and `PriceSummary` |
| CartTotals.PriceSummary | frontend/src/Cart/Cart.jsx:13-16 | subtotal of the lines, 13 % tax, 100 shipping for a non-empty cart, the total of the three; an empty cart costs nothing |
| CartTotals.CheckoutDisabled | frontend/src/Cart/Cart.jsx:59 | no contract: the definition (the checkout button is disabled exactly for an empty cart); no lemma uses it |
| CartTotals.SubtotalIsSumOfLines | frontend/src/Cart/Cart.jsx:13 | the subtotal is the sum of the line totals shown |
| CartTotals.SubtotalAppend | frontend/src/Cart/Cart.jsx:13 | the subtotal of a concatenation is the sum of the subtotals |
| CartTotals.TotalAtLeastShipping | frontend/src/Cart/Cart.jsx:13-16 | with non-negative prices and quantities, the total of a non-empty cart is at least the shipping fee |
| ProductDetailsQuantity.InitialQuantity | frontend/src/pages/ProductDetails.jsx:17 | no contract: the definition (`useState(1)`); its property is in `FromInitialQuantity` |
| ProductDetailsQuantity.Click1 | frontend/src/pages/ProductDetails.jsx:20-34 | + adds one below the stock, otherwise warns "Exceeded Available Stock!"; - subtracts one above 1, otherwise warns "Quantity cannot be less than 1!" |
| ProductDetailsQuantity.ClickStaysInRange | frontend/src/pages/ProductDetails.jsx:20-34 | one click keeps the quantity between 1 and the stock |
| ProductDetailsQuantity.ClicksStayInRange | frontend/src/pages/ProductDetails.jsx:20-34 | any sequence of clicks keeps it there |
| ProductDetailsQuantity.ControlsShown | frontend/src/pages/ProductDetails.jsx:116 | no contract: the definition (`product.stock > 0`); its property is in `FromInitialQuantity` |
| ProductDetailsQuantity.FromInitialQuantity | frontend/src/pages/ProductDetails.jsx:17 | starting from 1, with the controls shown only for stock > 0, the quantity never leaves 1..stock |
| PaginationControls.Rendered | frontend/src/components/Pagination.jsx:15 | no contract: the definition (nothing rendered when the current page loaded no products or there is one page) |
| PaginationControls.Range | frontend/src/components/Pagination.jsx:21-25 | the consecutive numbers lo..hi, none when lo > hi |
| PaginationControls.Window | frontend/src/components/Pagination.jsx:18-26 | no contract: the definition (max(1, c-2)..min(t, c+2)); its properties are in `GetPageNumbers` and `WindowProperties` |
| PaginationControls.GetPageNumbers | frontend/src/components/Pagination.jsx:18-27 | the loop builds the window of pages around the current one |
| PaginationControls.WindowProperties | frontend/src/components/Pagination.jsx:18-27 | at most 5 consecutive pages, within 1..totalPages and within 2 of the current page, which is among them |
| PaginationControls.FirstPrev | frontend/src/components/Pagination.jsx:31-37 | "1st" and "Prev" appear exactly after page 1 and go to 1 and to the page before |
| PaginationControls.NextLast | frontend/src/components/Pagination.jsx:52-55 | "Next" and "Last" appear exactly before the last page and go to the next and to the last page |
| PaginationControls.ButtonsStayInRange | frontend/src/components/Pagination.jsx:31-55 | every button leads to a page within 1..totalPages |
| BrowserStorage.LocalStorage.constructor | frontend/src/features/cart/cartSlice.js:29 | the storage holds the given entries |
| BrowserStorage.LocalStorage.SetItem | frontend/src/features/cart/cartSlice.js:39 | `setItem` stores the value under the key and changes no other entry |
| BrowserStorage.LocalStorage.RemoveItem | frontend/src/features/user/userSlice.js:180-181 | `removeItem` drops the key and changes no other entry |
| BrowserStorage.FlagText | frontend/src/features/user/userSlice.js:140 | `String(flag)` is "true" exactly for true |
| CartSlice.LoadCart | frontend/src/features/cart/cartSlice.js:29 | the stored cart, or an empty one |
| CartSlice.UpsertCartItem | frontend/src/features/cart/cartSlice.js:57-70 | a product not in the cart is appended; for one in the cart only that line's quantity changes |
| CartSlice.UpsertCartItemUnique | frontend/src/features/cart/cartSlice.js:57-70 | each product stays on one line, and the cart has a line for the added product with its quantity |
| CartSlice.UpsertCartItemIdempotent | frontend/src/features/cart/cartSlice.js:57-70 | adding the same item twice is adding it once |
| CartSlice.RemoveCartItemUnique | frontend/src/features/cart/cartSlice.js:37-40 | after removal the product has no line and products stay unique |
| CartSlice.LoadShipping | frontend/src/features/cart/cartSlice.js:34 | no contract: the definition (the stored shipping info, or `{}`); used by `CartState.constructor` |
| CartSlice.CartState.constructor | frontend/src/features/cart/cartSlice.js:28-35 | the cart and the shipping information are read from storage; not loading, no error, no message |
| CartSlice.CartState.RemoveCartItem | frontend/src/features/cart/cartSlice.js:37-40 | the product's lines go, the cart is written back to storage, nothing else changes |
| CartSlice.CartState.RemoveErrors | frontend/src/features/cart/cartSlice.js:41-43 | clears the error only |
| CartSlice.CartState.RemoveMessage | frontend/src/features/cart/cartSlice.js:44-47 | clears the message and the success flag only |
| CartSlice.CartState.SaveShippingInfo | frontend/src/features/cart/cartSlice.js:48-51 | stores the shipping information in state and storage; reading it back gives it |
| CartSlice.CartState.AddPending | frontend/src/features/cart/cartSlice.js:54-56 | sets loading only |
| CartSlice.CartState.AddFulfilled | frontend/src/features/cart/cartSlice.js:57-70 | upserts the item, writes the cart to storage, reports "name, Added to cart!" |
| CartSlice.CartState.AddRejected | frontend/src/features/cart/cartSlice.js:71-74 | stops loading and records the error only |
| UserSlice.LoadAuthenticated | frontend/src/features/user/userSlice.js:122 | signed in exactly when storage holds the text "true" under `isAuthenticated` |
| UserSlice.WithSession | frontend/src/features/user/userSlice.js:139-140 | after saving the session, reading storage back gives the user, signed in exactly when there is one; other entries unchanged |
| UserSlice.WithoutSession | frontend/src/features/user/userSlice.js:180-181 | after clearing, storage reads back no user and signed out; other entries unchanged |
| UserSlice.LoadUser | frontend/src/features/user/userSlice.js:118 | no contract: the definition (the stored user, or null); used by `UserState.constructor` and `WithSession` |
| UserSlice.UserState.constructor | frontend/src/features/user/userSlice.js:117-124 | the user and the sign-in flag are read from storage |
| UserSlice.UserState.Pending | frontend/src/features/user/userSlice.js:133 | sets loading and clears the error; the session is unchanged |
| UserSlice.UserState.SignInFulfilled | frontend/src/features/user/userSlice.js:133-164 | register or login: the user, signed in exactly with a user, mirrored to storage |
| UserSlice.UserState.SignInRejected | frontend/src/features/user/userSlice.js:142-147 | the error is recorded and the session cleared in state |
| UserSlice.UserState.LoadUserFulfilled | frontend/src/features/user/userSlice.js:167-174 | the loaded user becomes the session, mirrored to storage |
| UserSlice.UserState.LoadUserRejected | frontend/src/features/user/userSlice.js:175-182 | signed out in state and storage, no error shown |
| UserSlice.UserState.LogoutFulfilled | frontend/src/features/user/userSlice.js:185-196 | signed out in state and storage |
| UserSlice.UserState.Rejected | frontend/src/features/user/userSlice.js:193-247 | the other requests record the error only |
| UserSlice.UserState.UpdateProfileFulfilled | frontend/src/features/user/userSlice.js:199-211 | puts the returned user, when there is one, in state and storage, with the message and success flag |
| UserSlice.UserState.UpdatePasswordFulfilled | frontend/src/features/user/userSlice.js:214-222 | sets the success flag only |
| UserSlice.UserState.ForgotPasswordFulfilled | frontend/src/features/user/userSlice.js:225-234 | sets the success flag and message only |
| UserSlice.UserState.ResetPasswordFulfilled | frontend/src/features/user/userSlice.js:237-247 | sets the success flag and signs out in state |
| UserSlice.UserState.RemoveErrors | frontend/src/features/user/userSlice.js:126 | clears the error only |
| UserSlice.UserState.RemoveSuccess | frontend/src/features/user/userSlice.js:127 | clears the success flag and message only |
| AdminSlice.AdminState.constructor | frontend/src/features/admin/adminSlice.js:97-104 | no users, no products, not loading, no error, no message |
| AdminSlice.AdminState.Pending | frontend/src/features/admin/adminSlice.js:110 | sets loading and clears the error |
| AdminSlice.AdminState.Rejected | frontend/src/features/admin/adminSlice.js:111 | stops loading and records the error |
| AdminSlice.AdminState.GetAllUsersFulfilled | frontend/src/features/admin/adminSlice.js:115-118 | the users become the answer |
| AdminSlice.AdminState.UpdateUserRoleFulfilled | frontend/src/features/admin/adminSlice.js:122-128 | replaces the user with the same id, reports "User role updated!" |
| AdminSlice.AdminState.DeleteUserFulfilled | frontend/src/features/admin/adminSlice.js:132-137 | removes the user with that id, reports "User deleted!" |
| AdminSlice.AdminState.GetAdminProductsFulfilled | frontend/src/features/admin/adminSlice.js:141-144 | the products become the answer |
| AdminSlice.AdminState.CreateProductFulfilled | frontend/src/features/admin/adminSlice.js:148-153 | appends the product, reports "Product created!" |
| AdminSlice.AdminState.UpdateProductFulfilled | frontend/src/features/admin/adminSlice.js:157-163 | replaces the product with the same id, reports "Product updated!" |
| AdminSlice.AdminState.DeleteProductFulfilled | frontend/src/features/admin/adminSlice.js:167-172 | removes the product with that id, reports "Product deleted!" |
| AdminSlice.AdminState.RemoveErrors | frontend/src/features/admin/adminSlice.js:106 | clears the error only |
| AdminSlice.AdminState.RemoveSuccess | frontend/src/features/admin/adminSlice.js:107 | clears the success flag and message only |
| OrderSlice.OrderState.constructor | frontend/src/features/order/orderSlice.js:72-80 | no orders, no order, total 0, not loading, no error, no message |
| OrderSlice.OrderState.Pending | frontend/src/features/order/orderSlice.js:88 | sets loading and clears the error |
| OrderSlice.OrderState.Rejected | frontend/src/features/order/orderSlice.js:93-96 | stops loading and records the error |
| OrderSlice.OrderState.MyOrdersFulfilled | frontend/src/features/order/orderSlice.js:88-96 | the orders become the answer |
| OrderSlice.OrderState.SingleOrderFulfilled | frontend/src/features/order/orderSlice.js:100-108 | the order shown becomes the answer |
| OrderSlice.OrderState.AllOrdersFulfilled | frontend/src/features/order/orderSlice.js:112-121 | the orders and the total become the answer |
| OrderSlice.OrderState.UpdateStatusFulfilled | frontend/src/features/order/orderSlice.js:125-136 | replaces the order with the same id, reports "Order status updated!" |
| OrderSlice.OrderState.DeleteOrderFulfilled | frontend/src/features/order/orderSlice.js:140-150 | removes the order with that id, reports "Order deleted!" |
| OrderSlice.OrderState.RemoveErrors | frontend/src/features/order/orderSlice.js:82 | clears the error only |
| OrderSlice.OrderState.RemoveSuccess | frontend/src/features/order/orderSlice.js:83 | clears the success flag and message only |
| ReviewSlice.ReviewState.constructor | frontend/src/features/review/reviewSlice.js:46-52 | no reviews, not loading, no error, no message |
| ReviewSlice.ReviewState.Pending | frontend/src/features/review/reviewSlice.js:61 | sets loading and clears the error |
| ReviewSlice.ReviewState.Rejected | frontend/src/features/review/reviewSlice.js:67-70 | stops loading and records the error |
| ReviewSlice.ReviewState.CreateFulfilled | frontend/src/features/review/reviewSlice.js:62-66 | reports "Review submitted successfully!" |
| ReviewSlice.ReviewState.GetFulfilled | frontend/src/features/review/reviewSlice.js:73-81 | the reviews become the answer |
| ReviewSlice.ReviewState.DeleteFulfilled | frontend/src/features/review/reviewSlice.js:84-94 | removes the review with that id, reports "Review deleted!" |
| ReviewSlice.ReviewState.ClearReviews | frontend/src/features/review/reviewSlice.js:56 | empties the reviews only |
| ReviewSlice.ReviewState.RemoveErrors | frontend/src/features/review/reviewSlice.js:54 | clears the error only |
| ReviewSlice.ReviewState.RemoveSuccess | frontend/src/features/review/reviewSlice.js:55 | clears the success flag and message only |
| AdminTable.TotalPages | frontend/src/Admin/AdminProducts.jsx:112 | `Math.ceil(rows / 8)`: the pages hold every row and the last one is not empty |
| AdminTable.Paginated | frontend/src/Admin/AdminProducts.jsx:113 | no contract: the definition (the JS `slice` of the page); its properties are in `PaginatedIsPage` and `AllRowsPaged` |
| AdminTable.PaginatedIsPage | frontend/src/Admin/AdminProducts.jsx:113 | the table's slice is the page of eight rows |
| AdminTable.AllRowsPaged | frontend/src/Admin/AdminProducts.jsx:112-113 | pages 1..totalPages each hold one to eight rows and together give every row in order; later pages are empty |
| AdminTable.FirstPageShowsFirstRows | frontend/src/Admin/AdminProducts.jsx:184 | after a filter or search resets to page 1 the first eight rows show, and something whenever a row matches |
| AdminTable.ShowsControls | frontend/src/Admin/AdminProducts.jsx:264 | no contract: the definition (`totalPages > 1`, the same test in the orders and users tables); its property is in `ControlsShownIff` |
| AdminTable.ControlsShownIff | frontend/src/Admin/AdminProducts.jsx:264-272 | the page buttons appear exactly when more than eight rows match |
| AdminTable.Navigate | frontend/src/Admin/AdminProducts.jsx:266-270 | no contract: the definition (`‹` disabled on page 1, `›` on the last, a number goes to its page); its properties are in `NavigateStaysInRange` and `StalePageShowsNothing` |
| AdminTable.NavigateStaysInRange | frontend/src/Admin/AdminProducts.jsx:264-272 | from a page in range, every button leads to a page in range |
| AdminTable.StalePageShowsNothing | frontend/src/Admin/AdminProducts.jsx:112-113 | when the rows shrink below the current page, the table is empty and `›` goes further out |
| AdminProducts.FilteredProducts | frontend/src/Admin/AdminProducts.jsx:108-110 | exactly the loaded products in the chosen category whose lower-cased name contains the lower-cased search |
| AdminProducts.CategoriesOf | frontend/src/Admin/AdminProducts.jsx:106 | each product's category, in order |
| AdminProducts.CategoryButtons | frontend/src/Admin/AdminProducts.jsx:106 | "All" first, then each category some product has, once each |
| AdminProducts.UnfilteredListsEverything | frontend/src/Admin/AdminProducts.jsx:108-110 | "All" with an empty search lists every product in order |
| AdminProducts.CategoryButtonsSelectSomething | frontend/src/Admin/AdminProducts.jsx:106-110 | with an empty search every category button shows at least one product |
| AdminProducts.CategoryButtonsInFirstAppearanceOrder | frontend/src/Admin/AdminProducts.jsx:106 | the category buttons follow the order in which the categories first appear |
| AdminProducts.CategorySelectsItsProducts | frontend/src/Admin/AdminProducts.jsx:108-110 | with an empty search, a category that some product has shows a non-empty table |
| AdminProducts.DataOf | frontend/src/Admin/AdminProducts.jsx:63-72 | the data sent copies the text fields, converts price and stock with `Number`, and includes the image only when one was chosen |
| AdminProducts.RequiredFilled | frontend/src/Admin/AdminProducts.jsx:59 | no contract: the definition (every required field truthy), the guard at lines 59 and 77; its properties are in `HandleCreate`, `HandleUpdate` and `SoldOutEditRefused` |
| AdminProducts.HandleCreate | frontend/src/Admin/AdminProducts.jsx:57-73 | refused with "Please fill all required fields" exactly when a required field is falsy, otherwise dispatches the form's data |
| AdminProducts.HandleUpdate | frontend/src/Admin/AdminProducts.jsx:75-91 | the same guard; otherwise dispatches the edited product's id with the form's data |
| AdminProducts.OpenEdit | frontend/src/Admin/AdminProducts.jsx:93-104 | the edit form holds the product's fields, its price and stock as numbers, and no new image |
| AdminProducts.EmptyFormRefused | frontend/src/Admin/AdminProducts.jsx:15 | the empty form is refused by both handlers |
| AdminProducts.UntouchedEditKeepsProduct | frontend/src/Admin/AdminProducts.jsx:75-104 | saving an edit form untouched sends the product's own values and no image |
| AdminProducts.SoldOutEditRefused | frontend/src/Admin/AdminProducts.jsx:77 | as written, an untouched edit of a product with stock 0 is refused, while typing "0" passes |
| AdminProducts.HandleUpdateCorrected | frontend/src/Admin/AdminProducts.jsx:75-91 | the update handler with an emptiness guard: refused exactly when a required field is empty |
| AdminProducts.CorrectedEditAccepted | frontend/src/Admin/AdminProducts.jsx:75-104 | with that guard an untouched edit is accepted exactly when the name, description and category are set, and typed input is judged as before |
| AdminOrders.CustomerName | frontend/src/Admin/AdminOrders.jsx:34 | no contract: the definition (`o.user?.name`, always undefined for an unpopulated order); its effect is stated by `FilteredOrders` |
| AdminOrders.FilteredOrders | frontend/src/Admin/AdminOrders.jsx:32-34 | exactly the loaded orders with the chosen status whose lower-cased id contains the lower-cased search |
| AdminOrders.HandleUpdateStatus | frontend/src/Admin/AdminOrders.jsx:39-42 | refused with "Please select a status" exactly when no status is selected, otherwise dispatches the order id with the status |
| AdminOrders.OpenEditStatus | frontend/src/Admin/AdminOrders.jsx:111 | the modal preselects the order's current status |
| AdminOrders.UnfilteredListsEverything | frontend/src/Admin/AdminOrders.jsx:32-34 | "All" with an empty search lists every order in order |
| AdminOrders.StatusButtonsSplit | frontend/src/Admin/AdminOrders.jsx:59-61 | of the four status buttons, an order with one of the three statuses shows under "All" and under its own status button only |
| AdminOrders.UpdateRefusedOnlyWithoutStatus | frontend/src/Admin/AdminOrders.jsx:145-149 | every option of the select is dispatched, and so is an untouched modal on an order that has a status |
| AdminUsers.FilteredUsers | frontend/src/Admin/AdminUsers.jsx:30-35 | exactly the loaded users with the chosen role whose name or email contains the search |
| AdminUsers.RoleButtonsSplit | frontend/src/Admin/AdminUsers.jsx:59-60 | of the three role buttons, a matching user with one of the two roles shows under "All" and under its own role button only |
| AdminUsers.EmptySearchHidesNamelessUsers | frontend/src/Admin/AdminUsers.jsx:30-35 | "All" with an empty search lists the users that have a name or an email; a user with neither is never listed |

## Left out

- I/O: HTTP transport, Mongoose queries, `populate`, and JSON parsing of request bodies. Handlers take their inputs as values, and a response is a `Result`.
- Concurrency: `Promise.all` in the order-status update starts every stock update at once. The model runs them all, in item order, whatever fails. Two items of the same product can lose an update in the source (both read the old stock before either saves), which the model does not show.
- Mongoose validation and casting: the schema's field checks, and the type casts of ids and numbers. A `CastError` enters the model only through `ErrorMiddleware.Respond`.
- ProductController.GetAllProducts: the search and category filter of the query-building helper (not part of this model) is an input, `matching`. For a page below 1 the source hands a negative skip to that helper, so what the store then answers is not represented; the model answers with the first page's products, as `Paging.Page` clips the start at 0. A page that is not an integer is not modelled.
- ProductController.UpdateProduct: Mongoose's dropping of body fields outside the schema, its type casts and `runValidators` are not modelled; the body is any set of stored fields but the id.
- Authentication and roles: `req.user` is a parameter, the id of the signed-in user. The authorisation middleware is not part of this model.
- Ids, `Date.now()` and the random transaction id are parameters, and each new order id is assumed fresh (`id !in db.orders`). The simulated delay of the payment gateway (`setTimeout`) is left out.
- OrderController.CreateNewOrder: the initial `orderStatus` comes from the schema default (not part of this model) and is a parameter.
- The `handleAsyncError` wrapper: only its effect is modelled, that an `Err` result reaches the error middleware.
- Rendering: markup, `toFixed`, toast display and timers. Only what decides a toast or a dispatch is modelled.
- The JSON round trip through `localStorage` is taken to be the identity for the stored records.
- Redux payloads that may be missing a field: a missing `payload?.user` is modelled through `Option`. Other missing fields are assumed present.
- Missing request fields: only the review id of `deleteReview` is modelled as optional. Other query, route and body fields the handlers read are assumed present.
- `getMyOrders` and `getAdminProducts` have no logic beyond storing the answer, so they are modelled only as the reducer cases that store it.
- AdminUsers `handleUpdateRole` always dispatches the role chosen in the modal. It has no guard to model.
- AdminOrders.FilteredOrders: the customer-name half of the search never matches. The orders the admin list loads carry the customer's id, not a populated user, so `o.user?.name` is always undefined.
- The admin product form's image upload (`FileReader`) is a parameter: a data URL, or empty.
- AdminTable.Navigate: the current page is not clamped when rows are deleted. `AdminTable.StalePageShowsNothing` states what the table then shows.

## Findings

| source | as written | input that shows it | evidently intended | confidence | as-written member | corrected member |
|---|---|---|---|---|---|---|
| frontend/src/Admin/AdminProducts.jsx:77 | the edit guard tests truthiness, and `openEdit` (lines 93-104) loads price and stock as numbers, so a loaded 0 counts as a missing field | open the edit form of a product with stock 0 (sold out) and save it untouched: the toast "Please fill all required fields" appears and no update is sent | refuse only empty fields, so that a sold-out or free product can be edited | not executed | AdminProducts.SoldOutEditRefused | AdminProducts.CorrectedEditAccepted |
