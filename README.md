# ShopEase storefront core in Dafny

This project models the rules underneath the ShopEase React storefront and
proves properties about them. The rules covered are:

- the cart store with its storage mirror, and the guard layer of the cart hook;
- the checkout step machine with its card and UPI validation and its
  create-the-order-once guard;
- the auth store with its storage mirror;
- the product-search query-string algebra: set, toggle and remove, the page
  reset, `clearFilters`, and the price-range spread;
- the request-option merging of the API hook;
- the admin product list kept beside the CRUD requests;
- the product data helpers: the query builder, the response-shape decoders
  and the fallback selectors;
- the string helpers: truncation, discount, initials, snake-to-camel, and
  key conversion;
- the validators, counters and filters of the product form, account,
  product, admin orders, admin products and dashboard pages.

Each source file is one module. State that the source updates in place
(Redux slices, React state, a mutated `URLSearchParams` or `FormData`)
is a `class` whose methods carry `modifies` clauses. Each such method is
proved against a pure function of the old state. The pure rules are
functions, and the properties are lemmas about them. Network replies,
timers and storage reads are inputs of the operations that use them.

Shared modules (not tied to one source file):

| Module | Provides |
|---|---|
| `Wrappers` | `Option`, and `Outcome` (a pass, or a failure with its message) |
| `Seqs` | filter, subsequence, take |
| `Text` | the JavaScript string operations used: split, join, trim, ASCII case mapping, substring search |
| `Numbers` | decimal text and `parseInt` |
| `Params` | ordered key/value lists, which model both `URLSearchParams` (`set`, `delete`, `get`) and plain objects (`obj[k] = v`, spread) |
| `Js` | JSON values, JavaScript truthiness, optional property access, and the shape of an HTTP reply |
| `Catalog` | products, orders and users |

## Model

| member | source | states |
|---|---|---|
| CartSlice.IndexOf | src/store/cartSlice.ts:26 | The position `find` lands on: the first item with that product id, and none exactly when no item has it. |
| CartSlice.IndexOfUnique | src/store/cartSlice.ts:26 | When ids are distinct, looking up an item's id finds that very item. |
| CartSlice.InitialItems | src/store/cartSlice.ts:15-18 | The initial items are the stored list, or empty when the key is missing or its text does not parse. |
| CartSlice.Added | src/store/cartSlice.ts:24-36 | The list `addToCart` produces. It has the product afterwards, and grows by one exactly when the product was absent. AddExisting and AddAbsent state its contents. |
| CartSlice.Updated | src/store/cartSlice.ts:37-47 | The list `updateQuantity` produces. The length and the set of ids are unchanged. UpdateSets states its contents. |
| CartSlice.Removed | src/store/cartSlice.ts:48-54 | The list `removeFromCart` produces. It is no longer than before and has no item with the id. RemoveDeletes states its contents. |
| CartSlice.AddExisting | src/store/cartSlice.ts:26-30 | Adding a product already present keeps the length, raises that item's quantity by the amount and leaves every other item alone. |
| CartSlice.AddAbsent | src/store/cartSlice.ts:31-32 | Adding a product not present appends `{product, quantity}` at the end. |
| CartSlice.AddKeepsUnique | src/store/cartSlice.ts:24-36 | Adding keeps product ids distinct, and the product is in the cart afterwards. |
| CartSlice.UpdateSets | src/store/cartSlice.ts:37-47 | Setting a quantity keeps the length. The matching item gets exactly the given quantity and the others are unchanged. An absent id changes nothing. Distinct ids stay distinct. |
| CartSlice.RemoveDeletes | src/store/cartSlice.ts:48-54 | Removal leaves no item with the id. An item is kept exactly when it was there with another id, in the original order, and each kept item occurs as many times as before. An absent id changes nothing. |
| CartSlice.SubsequenceKeepsUnique | src/store/cartSlice.ts:50 | Any subsequence of a list with distinct ids has distinct ids and only items of the list. |
| CartSlice.RemoveKeepsUnique | src/store/cartSlice.ts:48-54 | Removal keeps product ids distinct. |
| CartSlice.CartStore.constructor | src/store/cartSlice.ts:15-18 | The store starts with `InitialItems` of the saved slot. |
| CartSlice.CartStore.Find | src/store/cartSlice.ts:26 | The search loop returns exactly `IndexOf`. |
| CartSlice.CartStore.AddToCart | src/store/cartSlice.ts:24-36 | The items become `Added` of the old items, the slot holds the new items, and distinct ids stay distinct. |
| CartSlice.CartStore.UpdateQuantity | src/store/cartSlice.ts:37-47 | The items become `Updated` of the old items. The slot is written even when the id is absent. Distinct ids stay distinct. |
| CartSlice.CartStore.RemoveFromCart | src/store/cartSlice.ts:48-54 | The items become `Removed` of the old items and the slot holds them. Distinct ids stay distinct. |
| CartSlice.CartStore.ClearCart | src/store/cartSlice.ts:55-60 | The items are empty and the storage key is deleted; no empty list is stored. |
| UseCart.ItemCount | src/hooks/useCart.ts:19 | The `itemCount` sum of quantities. ItemCountAdded, ItemCountUpdated, ItemCountRemoved, ItemCountAppend and ItemCountReplace state how each cart change moves it. |
| UseCart.Subtotal | src/hooks/useCart.ts:18 | The `subtotal` sum of price × quantity. SubtotalAddedNew, SubtotalAddedExisting, SubtotalGrows, SubtotalAppend and SubtotalReplace state how each cart change moves it. |
| UseCart.IsInCart | src/hooks/useCart.ts:60-62 | True exactly when some item has the product id. |
| UseCart.GetQuantity | src/hooks/useCart.ts:65-68 | The found item's quantity, or 0 when absent. |
| UseCart.AddItemCheck | src/hooks/useCart.ts:23-25 | Fails, with "Not enough stock available", exactly when stock is below the requested quantity. |
| UseCart.UpdateItemCheck | src/hooks/useCart.ts:33-41 | "Product not found in cart" for an absent id, checked before stock. It passes exactly when the found item's stock covers the quantity, and fails with the stock message otherwise. |
| UseCart.AddItem | src/hooks/useCart.ts:22-29 | The quantity is a required argument; the source's default of 1 is the caller passing 1. Returns the check's outcome. A failure leaves the cart and slot unchanged. A pass dispatches `addToCart`. |
| UseCart.UpdateItem | src/hooks/useCart.ts:32-45 | Returns the check's outcome. A failure leaves the cart unchanged. A pass dispatches the absolute set. |
| UseCart.RemoveItem | src/hooks/useCart.ts:48-51 | Always succeeds, and the cart becomes `Removed`. |
| UseCart.EmptyCart | src/hooks/useCart.ts:54-57 | Always succeeds, and the cart is cleared with its key deleted. |
| UseCart.ItemCountAdded | src/hooks/useCart.ts:19 | Adding raises the item count by exactly the quantity added, whether the product was present or not. |
| UseCart.SubtotalAddedNew | src/hooks/useCart.ts:18 | Adding a new product raises the subtotal by price × quantity. |
| UseCart.SubtotalAddedExisting | src/hooks/useCart.ts:18 | Adding to an existing item raises the subtotal by that item's price × the added quantity. |
| UseCart.SubtotalGrows | src/hooks/useCart.ts:18 | Raising one item's quantity by d raises the subtotal by its price × d. |
| UseCart.ItemCountUpdated | src/hooks/useCart.ts:19 | After a set, the count is the old count minus the previous quantity plus the new one; an absent id changes nothing. |
| UseCart.ItemCountRemoved | src/hooks/useCart.ts:19 | With distinct ids, removal lowers the count by the removed item's quantity. |
| UseCart.ClearedTotals | src/hooks/useCart.ts:18-19 | An empty cart has count 0 and subtotal 0. |
| UseCart.ItemCountAppend | src/hooks/useCart.ts:19 | The `reduce` count of a list with one more item grows by its quantity. |
| UseCart.SubtotalAppend | src/hooks/useCart.ts:18 | The `reduce` subtotal of a list with one more item grows by its line total. |
| UseCart.ItemCountReplace | src/hooks/useCart.ts:19 | Replacing one item changes the count by the difference of the quantities. |
| UseCart.SubtotalReplace | src/hooks/useCart.ts:18 | Replacing one item changes the subtotal by the difference of the line totals. |
| UseCart.AddCanExceedStock | src/hooks/useCart.ts:23-28 | The guard looks only at the requested quantity. Two adds of 2 and 1 each pass against a stock of 2, yet leave 3 in the cart. |
| UseCart.PlanOrder | src/hooks/useCart.ts:72-84 | Refused when signed out, then refused when the cart is empty. Otherwise the order lines are the cart's (id, quantity) pairs in cart order. |
| UseCart.CreateOrder | src/hooks/useCart.ts:71-104 | A refusal is reported with its message. Placed exactly when the reply is truthy and so is its `success`, and then the order is the reply's `order`. Otherwise the error is `error.message`, or "Failed to create order". |
| UseCart.RefusedBeforeRequest | src/hooks/useCart.ts:72-78 | A refused order does not depend on any reply: no request is made. |
| AuthSlice.Restored | src/store/authSlice.ts:18-25 | Authenticated exactly when a non-empty token was saved, and the token is that value. The user is present exactly when a parseable user was saved. |
| AuthSlice.RestoredIsValid | src/store/authSlice.ts:21-25 | The initial state satisfies the invariant, and a token it holds is never empty. |
| AuthSlice.LoggedIn | src/store/authSlice.ts:36-44 | The state and storage after `login`: the user and token set, signed in, both saved. LoginSurvivesReload and ReducersKeepValid state its properties. |
| AuthSlice.LoggedOut | src/store/authSlice.ts:45-53 | The state and storage after `logout`: all cleared and both keys removed. LogoutSurvivesReload and ReducersKeepValid state its properties. |
| AuthSlice.UserUpdated | src/store/authSlice.ts:54-59 | The state and storage after `updateUser`: only the user and its saved copy change. UpdateWhileSignedOut and ReducersKeepValid state its properties. |
| AuthSlice.ReducersKeepValid | src/store/authSlice.ts:36-59 | Login, logout and update preserve the invariant. Update leaves token and `isAuthenticated` as they were. |
| AuthSlice.LoginSurvivesReload | src/store/authSlice.ts:36-43 | After a login with a non-empty token, restoring from storage gives back the same state. |
| AuthSlice.EmptyTokenLostOnReload | src/store/authSlice.ts:36-43 | A login with an empty token is authenticated, but a reload reads it as signed out while keeping the user. |
| AuthSlice.LogoutSurvivesReload | src/store/authSlice.ts:45-52 | After logout, restoring from storage gives the signed-out state. |
| AuthSlice.UpdateWhileSignedOut | src/store/authSlice.ts:54-58 | Updating the user while signed out stores the user without a token, so a reload shows a user who is not authenticated. |
| AuthSlice.AuthStore.constructor | src/store/authSlice.ts:18-25 | The store starts from `Restored` of the saved storage. |
| AuthSlice.AuthStore.Login | src/store/authSlice.ts:36-44 | State and storage become `LoggedIn`: user, token, authenticated, both keys written. |
| AuthSlice.AuthStore.Logout | src/store/authSlice.ts:45-53 | State and storage become `LoggedOut`: nulls, not authenticated, both keys removed. |
| AuthSlice.AuthStore.UpdateUser | src/store/authSlice.ts:54-59 | Only the user and its stored copy change, and the invariant is kept. |
| Checkout.InitialPage | src/pages/Checkout.tsx:22-33 | The state on first render. InitialIsValid states that it meets the page invariant. |
| Checkout.ValidCard | src/pages/Checkout.tsx:173 | The simplified card check: a number of at least 16 characters and no empty name, expiry or CVV. CardRejected and CardCompletes state both outcomes. |
| Checkout.ValidUpiId | src/pages/Checkout.tsx:100-105 | The UPI id check: non-empty and containing "@". UpiRejected states the refusal. |
| Checkout.RedirectToCart | src/pages/Checkout.tsx:66-70 | The empty-cart guard: redirect exactly when the cart is empty and the order is not complete. CompletedPageStays states that a completed page no longer redirects. |
| Checkout.IdOr | src/pages/Checkout.tsx:201-212 | The order or payment id kept from a reply is the reply's id when that is a non-empty string, else `demo-<kind>-<time>`, so it is never empty. |
| Checkout.InitialIsValid | src/pages/Checkout.tsx:23-25 | The first step is 1 when signed in and 0 otherwise, with no order and not complete; the invariant holds. |
| Checkout.StepKeepsValid | src/pages/Checkout.tsx:92-281 | Every event whose control is on screen keeps the page invariant. The invariant: step in 0..3; complete exactly on step 3 and only with an order; no payment id without an order id; a pending verification has an order. |
| Checkout.OrderIdStable | src/pages/Checkout.tsx:183 | Once an order id is set, no event changes it or requests another order. |
| Checkout.PlacedSetsOrderId | src/pages/Checkout.tsx:193-201 | A placed order sets the non-empty order id from its reply. |
| Checkout.CardRejected | src/pages/Checkout.tsx:171-176 | An incomplete card (number under 16 characters, or empty name, expiry or CVV) changes only `paymentError`, and no request is made. |
| Checkout.UpiRejected | src/pages/Checkout.tsx:100-105 | With the UPI-id option, an empty id or one without "@" changes only `paymentError`, and no request is made. |
| Checkout.OrderFailureHalts | src/pages/Checkout.tsx:195-199 | A failed order creation sets `orderError` (or its fallback) and stops verifying. The step stays 2, no intent is requested and the cart is not cleared. |
| Checkout.CardCompletes | src/pages/Checkout.tsx:215-237 | A valid card with an order in hand reaches step 3 and completes, whatever the card processing replies, and schedules the cart clear. |
| Checkout.FirstCardPaymentUsesEmptyId | src/pages/Checkout.tsx:223 | On the first submission the card is processed with the payment id read before this submission set it, which is "". |
| Checkout.RetryAfterIntentFailure | src/pages/Checkout.tsx:206-213 | A failed payment intent keeps the new order id. Retrying creates no second order and no intent, and completes. |
| Checkout.CompletedPageStays | src/pages/Checkout.tsx:271-280 | Once the verification timer completes the page, an emptied cart no longer redirects, and the cart clear is scheduled. |
| Checkout.Ordering | src/pages/Checkout.tsx:183-213 | The `if (!orderId)` block. OrderIdStable, PlacedSetsOrderId, OrderFailureHalts and RetryAfterIntentFailure state its outcomes. |
| Checkout.PaymentSubmitted | src/pages/Checkout.tsx:167-238 | The card submission. CardRejected, CardCompletes and FirstCardPaymentUsesEmptyId state its outcomes. |
| Checkout.UpiSubmitted | src/pages/Checkout.tsx:97-165 | The UPI submission, which schedules the timer instead of completing. UpiRejected and StepKeepsValid state its outcomes. |
| Checkout.StatusChecked | src/pages/Checkout.tsx:245-281 | The QR status check: the order block without an intent, then the timer. StepKeepsValid and AtMostOneOrder cover it. |
| Checkout.VerificationFinished | src/pages/Checkout.tsx:271-280 | The timer callback: step 3, complete, cart clear scheduled. CompletedPageStays states its effect. |
| Checkout.Enabled | src/pages/Checkout.tsx:320-700 | When each control is on screen, with the submit buttons disabled while verifying. StepKeepsValid and RunKeepsValid assume only enabled events. |
| Checkout.Step | src/pages/Checkout.tsx:92-281 | One event's state change and requests. StepKeepsValid, OrderIdStable and RunKeepsValid state its properties. |
| Checkout.RunKeepsValid | src/pages/Checkout.tsx:92-281 | Any feasible sequence of events keeps the invariant. |
| Checkout.RunKeepsOrder | src/pages/Checkout.tsx:183 | With an order id in place, no sequence of events changes it or places another order. |
| Checkout.AtMostOneOrder | src/pages/Checkout.tsx:183-213 | Over any sequence of events at most one order is placed, and none if one already existed. |
| Checkout.CheckoutPage.constructor | src/pages/Checkout.tsx:23-33 | The page starts in `InitialPage`. |
| Checkout.CheckoutPage.ContinueAsGuest | src/pages/Checkout.tsx:337 | "Continue as Guest" moves to step 1. |
| Checkout.CheckoutPage.HandleShippingSubmit | src/pages/Checkout.tsx:92-95 | Moves to step 2 without validating anything. |
| Checkout.CheckoutPage.SelectMethod | src/pages/Checkout.tsx:504-517 | Sets the payment method and clears `paymentError`. |
| Checkout.CheckoutPage.SelectUpiOption | src/pages/Checkout.tsx:607-613 | Sets the UPI option. |
| Checkout.CheckoutPage.EditUpiId | src/pages/Checkout.tsx:658 | Sets the UPI id. |
| Checkout.CheckoutPage.Back | src/pages/Checkout.tsx:590 | "Back" from payment moves to step 1. |
| Checkout.CheckoutPage.CreateOrderOnce | src/pages/Checkout.tsx:183-213 | The `if (!orderId)` block: state, requests and whether the handler goes on are exactly `Ordering`. |
| Checkout.CheckoutPage.HandlePaymentSubmit | src/pages/Checkout.tsx:167-238 | State and effects are the card submission step, and the invariant is kept. |
| Checkout.CheckoutPage.HandleUpiSubmit | src/pages/Checkout.tsx:97-165 | State and effects are the UPI submission step, which schedules the verification timer; the invariant is kept. |
| Checkout.CheckoutPage.CheckPaymentStatus | src/pages/Checkout.tsx:245-281 | Creates the order if needed (no intent) and schedules the timer; the invariant is kept. |
| Checkout.CheckoutPage.FinishVerification | src/pages/Checkout.tsx:271-280 | The timer callback reaches step 3, completes and schedules the cart clear; the invariant is kept. |
| UseApi.Merged | src/hooks/useApi.ts:31-45 | `mergedOptions`. ScalarPrecedence, HeaderPrecedence, RequireAuthPrecedence and CallWithoutOptions state its precedence rules. |
| UseApi.HeadersOf | src/hooks/useApi.ts:37-38 | `options?.headers \|\| {}`: an options object's headers, or none. HeaderPrecedence states how the two are spread after the JSON content type. |
| UseApi.WithAuthorization | src/hooks/useApi.ts:48-50 | The bearer header added when auth is required and a token is present. AuthorizationRule states both cases. |
| UseApi.FirstText | src/hooks/useApi.ts:32 | `a \|\| b \|\| fallback`: the first non-empty of the two, else the fallback. |
| UseApi.ScalarPrecedence | src/hooks/useApi.ts:32-34 | Url and method are the call's when non-empty, else the hook's, else "" and "GET". The body is the call's when truthy, else the hook's. |
| UseApi.HeaderPrecedence | src/hooks/useApi.ts:35-39 | A header reads as the call's value, else the hook's, else `Content-Type: application/json`. |
| UseApi.RequireAuthPrecedence | src/hooks/useApi.ts:40-44 | `requireAuth` is the call's value if defined, else the hook's if defined, else false. |
| UseApi.AuthorizationRule | src/hooks/useApi.ts:48-50 | With auth required and a token held, `Authorization` is `Bearer <token>` and overrides any given one. Otherwise the request is untouched. No other header changes. |
| UseApi.CallWithoutOptions | src/hooks/useApi.ts:31-45 | A call without options uses the hook's url, body and `requireAuth`. |
| UseApi.ErrorMessage | src/hooks/useApi.ts:65-67 | A non-ok reply's message is `error.message`, else `message`, else the default text, and it is never empty. |
| UseApi.Settle | src/hooks/useApi.ts:62-76 | An ok reply becomes `data` and the result, with no error. A thrown request records its own message. A non-ok reply with a null body records the message of the TypeError that reading its `error` field throws. Any other non-ok reply records `ErrorMessage` of its body. Every failure keeps `data` and resolves to null. |
| UseApi.NestedMessageWins | src/hooks/useApi.ts:65 | A nested `error.message` is the recorded error. |
| UseApi.ApiHook.constructor | src/hooks/useApi.ts:23-25 | No data, no error, not loading. |
| UseApi.ApiHook.FetchData | src/hooks/useApi.ts:29-80 | The request sent is the merged options with the Authorization rule. The new data and error and the result are `Settle` of the reply. Loading ends false. |
| UseProducts.HasId | src/hooks/useProducts.ts:88 | `p.id === id` on a product value. ReplaceExactly and DeleteExactly are stated with it. |
| UseProducts.ProductsOf | src/hooks/useProducts.ts:25 | `data.products \|\| []`: the array's elements when `products` is an array, and the empty list when it is missing or falsy. |
| UseProducts.Failure | src/hooks/useProducts.ts:21-30 | A thrown request fails with its message. A non-ok reply fails with `data.message`, else the operation's fallback. A null body fails with a property-access error when the code reads it. The request succeeds exactly when the reply is ok and its body is usable. |
| UseProducts.AfterCreate | src/hooks/useProducts.ts:65 | A returned product is appended at the end; without one the list is unchanged. |
| UseProducts.ReplacedById | src/hooks/useProducts.ts:88 | Replacing by id keeps the length. |
| UseProducts.DeletedById | src/hooks/useProducts.ts:110 | Deleting by id never lengthens the list. |
| UseProducts.ReplaceExactly | src/hooks/useProducts.ts:88 | Exactly the elements with the id are replaced; the others are unchanged; no match means no change. |
| UseProducts.DeleteExactly | src/hooks/useProducts.ts:110 | No element with the id remains, every other element is kept with the same number of occurrences, and the order is preserved. |
| UseProducts.DeleteIdempotent | src/hooks/useProducts.ts:110 | Deleting the same id twice is the same as once. |
| UseProducts.ProductsHook.constructor | src/hooks/useProducts.ts:9-10 | No products, no error. |
| UseProducts.ProductsHook.FetchProducts | src/hooks/useProducts.ts:18-34 | A failure records its message and keeps the list. Success stores `ProductsOf` of the reply body. |
| UseProducts.ProductsHook.FetchProductById | src/hooks/useProducts.ts:36-51 | The list never changes. A failure records its message; success returns `data.product`. |
| UseProducts.ProductsHook.CreateProduct | src/hooks/useProducts.ts:53-74 | Without a token: "Authentication required", with list and error unchanged. A failure records its message and keeps the list. Success applies `AfterCreate`. |
| UseProducts.ProductsHook.UpdateProduct | src/hooks/useProducts.ts:76-97 | The same token guard and failure rule. Success replaces by id when a product is returned. |
| UseProducts.ProductsHook.DeleteProduct | src/hooks/useProducts.ts:99-119 | The same token guard and failure rule. Success deletes by id. |
| ProductData.BuildQuery | src/data/products.ts:6-15 | The parameters `buildQueryString` builds are exactly `QueryOf` of the filters. |
| ProductData.Assemble | src/data/products.ts:7-12 | Four conditional `set` calls on a fresh parameter list give the four optional entries in order. |
| ProductData.SetWhen | src/data/products.ts:9-12 | A guarded `set` of a new key appends the entry when the guard holds and changes nothing otherwise. |
| ProductData.QueryKeys | src/data/products.ts:9-12 | Search and sort are present only when non-empty, and category and price only when their lists are non-empty, joined by ",". There are at most four entries. |
| ProductData.CategoriesReadBack | src/data/products.ts:11 | Categories that are non-empty and comma-free split back out of the `category` value unchanged. |
| ProductData.DecodeProducts | src/data/products.ts:20-50 | `fetchProducts` on a reply, for every reply: a thrown or non-ok reply gives []; an ok reply gives the body when it is an array, else its `products` array, else its `data` array, else []. |
| ProductData.DecodeProductsShapes | src/data/products.ts:37-43 | A bare array, an array `products` field and an array `data` field are each returned as they are. |
| ProductData.DecodeProductsFailures | src/data/products.ts:29-49 | A thrown request, a non-ok status or a null body give the empty list. |
| ProductData.DecodeProductsPrecedence | src/data/products.ts:37-45 | An array `products` wins over an array `data`. A `products` that is not an array falls through to `data`. An object with neither, and a string body, give []. |
| ProductData.DecodeProduct | src/data/products.ts:55-77 | A thrown request, a non-ok status or a null body gives null. Any other reply gives its truthy `product` field, else its truthy `data` field, else the body itself. |
| ProductData.DecodeProductShapes | src/data/products.ts:66-70 | A truthy `product` field, or `data` field, is what is returned. |
| ProductData.EndpointList | src/data/products.ts:88-97 | What a dedicated endpoint yields when usable: an array under `products`, else under `data`, else a bare array. FirstFourFallback and OnSaleProducts state how it is used. |
| ProductData.Featured | src/data/products.ts:82-109 | `fetchFeaturedProducts`. FirstFourFallback and FallbackQueries state its result and its fallback query. |
| ProductData.NewArrivals | src/data/products.ts:114-140 | `fetchNewArrivals`. FirstFourFallback and FallbackQueries state its result and its fallback query. |
| ProductData.Related | src/data/products.ts:145-171 | `fetchRelatedProducts`. FirstFourFallback and FallbackQueries state its result and its fallback query. |
| ProductData.FirstFourFallback | src/data/products.ts:82-109 | The dedicated endpoint's list when it gives one, else at most the first four of the general list. |
| ProductData.FallbackQueries | src/data/products.ts:134 | Featured falls back to an unfiltered query, new arrivals to `sort=newest`, and related to `category=<category>`. |
| ProductData.Num | src/data/products.ts:198-199 | The number a field compares as under `>`: null is 0, a number is itself, and a missing field is NaN, which no comparison satisfies. |
| ProductData.OnSale | src/data/products.ts:197-200 | The sale filter: a positive discount, or a truthy original price above the price, with null and booleans coerced to numbers. OnSaleFallback and NullPriceOnSale state its use and its coercion. |
| ProductData.OnSaleProducts | src/data/products.ts:176-190 | The dedicated sale endpoint's list when it gives one. |
| ProductData.OnSaleFallback | src/data/products.ts:195-200 | Otherwise: at most four products from the general list, in order, each of them `OnSale`. A null element makes the filter throw, giving []. |
| ProductData.NullPriceOnSale | src/data/products.ts:197-200 | A product with an original price of 100 and a null price is on sale, because null compares as 0. Without a price field it is not, because undefined compares as NaN. |
| ProductForm.With | src/components/admin/ProductForm.tsx:48-51 | `handleChange` sets the named field and no other. |
| ProductForm.FormError | src/components/admin/ProductForm.tsx:53-73 | Each message is returned exactly when its check is the first to fail, in the order name, description, price, category, stock, discount, image, URL. "" is returned exactly when all pass. |
| ProductForm.BlankNameFirst | src/components/admin/ProductForm.tsx:54 | A name made only of whitespace is reported first, whatever else is wrong. |
| ProductForm.Tags | src/components/admin/ProductForm.tsx:99-101 | The tag list: split on ",", trimmed, empties dropped. TagsAreTags and TagsOfListed state its properties. |
| ProductForm.TagsAreTags | src/components/admin/ProductForm.tsx:99-101 | Every parsed tag is non-empty, trimmed and free of commas. |
| ProductForm.TagsOfListed | src/components/admin/ProductForm.tsx:99-101 | Tags listed as "a, b" parse back to the same tags. |
| ProductForm.Submission | src/components/admin/ProductForm.tsx:84-105 | The `FormData` entries in append order. SubmissionKeys, SubmissionValues and BuildSubmission state its keys and values. |
| ProductForm.SubmissionKeys | src/components/admin/ProductForm.tsx:84-105 | The payload keys come in append order. `id` is present exactly when editing and `original_price` exactly when given. |
| ProductForm.SubmissionValues | src/components/admin/ProductForm.tsx:96-102 | The discount defaults to "0", and the tags are the JSON of the parsed list. |
| ProductForm.BuildSubmission | src/components/admin/ProductForm.tsx:84-105 | The successive `append` calls build exactly `Submission`. |
| ProductForm.SaveError | src/components/admin/ProductForm.tsx:107-117 | There is an error exactly when the save did not succeed. A failed save reports the reply's non-empty message, else "Failed to save product". A thrown request reports "An unexpected error occurred". |
| ProductForm.ProductEditor.constructor | src/components/admin/ProductForm.tsx:19-30 | Empty fields, image and error. |
| ProductForm.ProductEditor.Change | src/components/admin/ProductForm.tsx:48-51 | Only the named field changes. |
| ProductForm.ProductEditor.SetImage | src/components/admin/ProductForm.tsx:253 | Only the image URL changes. |
| ProductForm.ProductEditor.Submit | src/components/admin/ProductForm.tsx:75-118 | An invalid form records the message and sends nothing. A valid one sends `Submission` and leaves the page exactly on success; otherwise it records the save error. |
| Account.With | src/pages/Account.tsx:93 | Editing sets the named field and no other. |
| Account.Rule | src/pages/Account.tsx:111-121 | The message one field gets. ErrorLookup states each message and when it appears. |
| Account.ErrorList | src/pages/Account.tsx:108-125 | The `errors` object. CollectErrors, ErrorLookup and NoErrorsIffAcceptable state its contents. |
| Account.ErrorLookup | src/pages/Account.tsx:108-121 | Each field's recorded error is the outcome of that field's rule. The rules: name required; email required and matching `\S+@\S+\.\S+`; password rules only when a password field is filled. |
| Account.NoErrorsIffAcceptable | src/pages/Account.tsx:123-124 | The form is valid exactly when no error was recorded. |
| Account.ShortPasswordReported | src/pages/Account.tsx:117-118 | A new password under 6 characters is reported. |
| Account.EmailPatternNotAnchored | src/pages/Account.tsx:113 | The unanchored pattern accepts text with an address inside and rejects "a@b". |
| Account.CollectErrors | src/pages/Account.tsx:108-125 | The record filled is exactly `ErrorList`, and the result is true exactly when it is empty. |
| Account.Fill | src/pages/Account.tsx:109-121 | The conditional assignments record the five outcomes in field order. |
| Account.UpdateData | src/pages/Account.tsx:132-140 | The request body. PasswordSentOnlyWithBoth states when the password is sent. |
| Account.PasswordSentOnlyWithBoth | src/pages/Account.tsx:132-140 | `password` is sent exactly when current and new are both non-empty, and then it is the new password. |
| Account.ClearedErrorOnlyThatField | src/pages/Account.tsx:95-101 | Editing a field removes that field's error and no other. |
| Account.AccountPage.constructor | src/pages/Account.tsx:29-37 | Blank form, no errors, no success flag. |
| Account.AccountPage.Change | src/pages/Account.tsx:91-106 | Sets the field, clears only its error and clears the success flag. |
| Account.AccountPage.Submit | src/pages/Account.tsx:127-158 | An invalid form records the errors and sends nothing. A valid one sends `UpdateData`. Success sets the flag and clears the three password fields. A failure with an error text records it under `form`. |
| Account.AccountPage.Settle | src/pages/Account.tsx:142-157 | The reply handling alone: the same success and failure effects. |
| ProductDetail.Increased | src/pages/ProductDetail.tsx:75-79 | One more exactly when a product is shown and the count is below its stock, else unchanged. |
| ProductDetail.Decreased | src/pages/ProductDetail.tsx:81 | One less above 1, else 1; never below 1. |
| ProductDetail.IncreaseInRange | src/pages/ProductDetail.tsx:75-79 | Increase keeps the counter at least 1 and within stock (or at 1). |
| ProductDetail.DecreaseInRange | src/pages/ProductDetail.tsx:81 | Decrease keeps that range. |
| ProductDetail.PressesInRange | src/pages/ProductDetail.tsx:75-81 | Any sequence of presses from a counter in range stays in range. |
| ProductDetail.PlusClimbsToStock | src/pages/ProductDetail.tsx:75-79 | n presses of plus climb one a press until the stock, and never move a count already at or above it. |
| ProductDetail.RelatedShownFacts | src/pages/ProductDetail.tsx:58 | The related list never holds the shown product's id. It keeps every other product, in reply order. |
| ProductDetail.ProductPage.constructor | src/pages/ProductDetail.tsx:20-25 | No product, counter 1, image 0, loading. |
| ProductDetail.ProductPage.Increase | src/pages/ProductDetail.tsx:75-79 | The counter becomes `Increased`; nothing else changes; the range is kept. |
| ProductDetail.ProductPage.Decrease | src/pages/ProductDetail.tsx:81 | The counter becomes `Decreased`; nothing else changes; the range is kept. |
| ProductDetail.ProductPage.Load | src/pages/ProductDetail.tsx:29-70 | Without an id nothing happens. "Not found" sets its message and keeps the counter. Every other outcome resets the counter to 1 and the image to 0. A found product is shown with its filtered related list. A failure sets "Failed to load product details". The range is kept. |
| AllOrders.Filtered | src/pages/admin/AllOrders.tsx:23-31 | `filteredOrders`. FilteredMembership, FilteredInOrder, FilteredStatus and SearchIgnoresCase state its contents. |
| AllOrders.FilteredMembership | src/pages/admin/AllOrders.tsx:23-31 | An order is listed exactly when it matches both the search and the status filter. |
| AllOrders.FilteredInOrder | src/pages/admin/AllOrders.tsx:23 | The list is a subsequence of the orders. |
| AllOrders.FilteredStatus | src/pages/admin/AllOrders.tsx:28 | A filter other than "all" lists only orders with exactly that status. |
| AllOrders.EmptySearchListsAll | src/pages/admin/AllOrders.tsx:24-28 | An empty search with "all" lists every order. |
| AllOrders.SearchIgnoresCase | src/pages/admin/AllOrders.tsx:24-26 | The search ignores ASCII case. |
| AllOrders.FollowUp | src/pages/admin/AllOrders.tsx:35-47 | Refetch exactly on success. A failure alerts with the prefix and the error (or "undefined"). A throw gives its own alert. |
| AllOrders.OrdersPage.constructor | src/pages/admin/AllOrders.tsx:14-16 | Empty search, "all", nothing updating. |
| AllOrders.OrdersPage.ChangeStatus | src/pages/admin/AllOrders.tsx:33-51 | Returns `FollowUp`, and `updatingOrderId` is null whatever the outcome. |
| ProductList.Filtered | src/components/admin/ProductList.tsx:24-28 | `filteredProducts`. FilteredFacts, EmptySearchListsAll and IdFindsProduct state its contents. |
| ProductList.FilteredFacts | src/components/admin/ProductList.tsx:24-28 | A product is listed exactly when the lowercased term is in its lowercased name, category or id, in the original order. |
| ProductList.EmptySearchListsAll | src/components/admin/ProductList.tsx:24-28 | An empty term lists every product. |
| ProductList.IdFindsProduct | src/components/admin/ProductList.tsx:24-28 | A full id in any ASCII case finds its product. |
| ProductList.ProductTable.constructor | src/components/admin/ProductList.tsx:20-22 | Empty search, no dialog, not deleting. |
| ProductList.ProductTable.DeleteClick | src/components/admin/ProductList.tsx:30-32 | The dialog asks about that product. |
| ProductList.ProductTable.ConfirmDelete | src/components/admin/ProductList.tsx:34-44 | The id is requested for deletion. Afterwards nothing is deleting and the dialog is closed. |
| ProductList.ProductTable.CancelDelete | src/components/admin/ProductList.tsx:46-48 | The dialog closes and nothing else changes. |
| Dashboard.Revenue | src/pages/admin/Dashboard.tsx:27 | The sum of order totals. RevenueCoversEach and RevenueNonNegative state its bounds. |
| Dashboard.CountStatus | src/pages/admin/Dashboard.tsx:28-30 | The number of orders with a status. CountStatusAppend, CountStatusZero and StatusCountsBounded state its properties. |
| Dashboard.Average | src/pages/admin/Dashboard.tsx:31 | The average times the order count gives the revenue back. |
| Dashboard.ComputedFacts | src/pages/admin/Dashboard.tsx:26-31 | The total is the number of orders and the revenue is the sum of totals. The three counted statuses never exceed the total. |
| Dashboard.CountStatusAppend | src/pages/admin/Dashboard.tsx:28-30 | One more order adds one to its own status's count only. |
| Dashboard.CountStatusZero | src/pages/admin/Dashboard.tsx:28-30 | A count is 0 exactly when no order has that status. |
| Dashboard.StatusCountsBounded | src/pages/admin/Dashboard.tsx:28-30 | pending + delivered + cancelled ≤ number of orders. |
| Dashboard.RevenueCoversEach | src/pages/admin/Dashboard.tsx:27 | With non-negative totals, the revenue is at least each total. |
| Dashboard.RevenueNonNegative | src/pages/admin/Dashboard.tsx:27 | With non-negative totals, the revenue is non-negative. |
| Dashboard.RecentOrders | src/pages/admin/Dashboard.tsx:44 | The first five orders, or all when there are fewer. |
| Dashboard.Width | src/pages/admin/Dashboard.tsx:177 | 0 with no orders. A count between 0 and the order count gives a width in [0, 100]. |
| Dashboard.DashboardPage.constructor | src/pages/admin/Dashboard.tsx:11-18 | All statistics zero. |
| Dashboard.DashboardPage.OrdersChanged | src/pages/admin/Dashboard.tsx:24-42 | Recomputed for a non-empty list; an empty list keeps the previous statistics. |
| Dashboard.DashboardPage.StatusWidths | src/pages/admin/Dashboard.tsx:177-221 | Five bars, all 0 with no orders. |
| Dashboard.WidthsAfterRefresh | src/pages/admin/Dashboard.tsx:177-221 | Right after a refresh the bars drawn from the stored counts lie in [0, 100]. |
| ProductSearch.Selected | src/hooks/useProductSearch.ts:25-31 | The selected values are non-empty and comma-free, and there are none when the parameter is absent. |
| ProductSearch.ParsedFilters | src/hooks/useProductSearch.ts:18-41 | The sort is never empty, and categories and price ranges are the selected values. |
| ProductSearch.UpdatedParams | src/hooks/useProductSearch.ts:112-148 | The parameters `updateFilters` produces. ChangeResetsPage, OtherKeysKept, RemoveClears, SetWrites, ToggleSelects and ToggleEmptyDeletes state them. |
| ProductSearch.UpdateFilters | src/hooks/useProductSearch.ts:112-148 | The mutated parameter copy is exactly `UpdatedParams`. |
| ProductSearch.ChangeResetsPage | src/hooks/useProductSearch.ts:117-120 | Updating any key but "page" sets page to "1". |
| ProductSearch.OtherKeysKept | src/hooks/useProductSearch.ts:114-145 | Keys other than the updated one and "page" read as before. |
| ProductSearch.RemoveClears | src/hooks/useProductSearch.ts:137-138 | "remove" deletes the key. |
| ProductSearch.SetWrites | src/hooks/useProductSearch.ts:139-141 | "set" stores the comma-joined value, or deletes the key when that is "". |
| ProductSearch.PageChangeReadsBack | src/hooks/useProductSearch.ts:165 | Setting the page to n reads back as page n. |
| ProductSearch.ToggledParts | src/hooks/useProductSearch.ts:128-130 | Toggling keeps every value non-empty and comma-free. |
| ProductSearch.ToggleSelects | src/hooks/useProductSearch.ts:122-136 | After a toggle the selected values are the old ones with the value removed if present, else appended. |
| ProductSearch.ToggleEmptyDeletes | src/hooks/useProductSearch.ts:128-136 | A toggle that leaves no value deletes the key instead of storing "". One that leaves values stores them joined by ",". |
| ProductSearch.ToggleTwice | src/hooks/useProductSearch.ts:124-136 | Toggling an absent value twice restores the selected values. |
| ProductSearch.ToggleEmptyArray | src/hooks/useProductSearch.ts:125-126 | Toggling an empty array acts like toggling "". |
| ProductSearch.ClearedParams | src/hooks/useProductSearch.ts:166-174 | The parameters `clearFilters` produces. ClearKeepsSearchAndSort states them. |
| ProductSearch.ClearFilters | src/hooks/useProductSearch.ts:166-174 | The fresh parameter list is exactly `ClearedParams`. |
| ProductSearch.ClearKeepsSearchAndSort | src/hooks/useProductSearch.ts:166-173 | After clearing: no categories or prices, page "1", search and sort as they read before, at most three entries. |
| ProductSearch.PriceSpread | src/hooks/useProductSearch.ts:55-59 | The five conditional spreads of price bounds, the later ones winning. PriceBounds, PriceSpreadKeepsOthers and OpenRangesConflict state the bounds. |
| ProductSearch.PriceBounds | src/hooks/useProductSearch.ts:55-59 | minPrice and maxPrice are the bounds of the last matching range in the fixed order. |
| ProductSearch.PriceSpreadKeepsOthers | src/hooks/useProductSearch.ts:55-59 | The price spread changes no other key. |
| ProductSearch.OpenRangesConflict | src/hooks/useProductSearch.ts:55-56 | "under-25" with "over-200" sends minPrice 200 and maxPrice 25. |
| ProductSearch.FetchQuery | src/hooks/useProductSearch.ts:49-60 | The query object of the product request. BaseQueryNames and FetchQueryCategory state its entries. |
| ProductSearch.BaseQueryNames | src/hooks/useProductSearch.ts:49-54 | The base query carries the joined categories and limit 12. |
| ProductSearch.FetchQueryCategory | src/hooks/useProductSearch.ts:49-60 | The price spread keeps them in the request query. |
| Utils.SliceEnd | src/lib/utils.ts:28 | The end index `slice(0, n)` uses, a negative n counting from the end. |
| Utils.Truncated | src/lib/utils.ts:26-29 | Unchanged when short enough. Otherwise a prefix plus "...": the first `maxLength` characters for a non-negative limit, at most `maxLength + 3` long. |
| Utils.TruncatedIdempotent | src/lib/utils.ts:26-29 | Truncating twice is truncating once. |
| Utils.NegativeLimitCountsFromEnd | src/lib/utils.ts:28 | A negative limit cuts from the end, so the result can exceed `maxLength + 3`. |
| Utils.Round | src/lib/utils.ts:75 | `Math.round` lands within half of its argument. |
| Utils.Discount | src/lib/utils.ts:73-76 | 0 without a real saving. Otherwise the rounded percentage, in [0, 100] for a non-negative current price. |
| Utils.SavingBounds | src/lib/utils.ts:75 | A real saving is positive, and at most 100 for a non-negative price. |
| Utils.DiscountMonotone | src/lib/utils.ts:73-76 | A lower current price never gives a smaller discount. |
| Utils.Heads | src/lib/utils.ts:101-104 | At most one character per part. |
| Utils.Initials | src/lib/utils.ts:100-106 | Never longer than the number of space-separated parts. |
| Utils.HeadsIgnoresEmpty | src/lib/utils.ts:103 | Empty parts contribute nothing. |
| Utils.HeadsOfWords | src/lib/utils.ts:101-104 | Non-empty parts contribute exactly their first characters, in order. |
| Utils.InitialsOfWords | src/lib/utils.ts:100-106 | The initials are the upper-cased first characters of the non-empty parts. |
| Utils.Camel | src/lib/utils.ts:123-127 | The result is never longer. |
| Utils.CamelNoPairUnchanged | src/lib/utils.ts:123-127 | A string with no `[-_][a-z]` pair is unchanged. |
| Utils.CamelHasNoPair | src/lib/utils.ts:123-127 | The result contains no such pair. |
| Utils.CamelIdempotent | src/lib/utils.ts:123-127 | Converting twice is converting once. |
| Utils.CamelSnakeExample | src/lib/utils.ts:124-126 | "user_id" becomes "userId". |
| Utils.CamelPairExamples | src/lib/utils.ts:124-126 | The scan does not overlap: "x_-y" becomes "x_Y". An upper-case letter after "_" is left alone. |
| Utils.Put | src/lib/utils.ts:143 | `acc[k] = v`. An existing key keeps its place and gets the new value, and every other member stays as it was. A new key is appended. |
| Utils.KeysToCamel | src/lib/utils.ts:132-146 | Non-objects are unchanged. Arrays are mapped element-wise. Objects come out with distinct keys. |
| Utils.KeysToCamelNoCollision | src/lib/utils.ts:132-146 | When no two keys camelize to the same key, the result is the object with each key camelized and each value converted, in the original order. |
| Utils.LastValue | src/lib/utils.ts:141-145 | The value of the last member with a key: none exactly when no member has it, otherwise a member with that key and value after which the key does not recur. |
| Utils.PutLookup | src/lib/utils.ts:143 | After `acc[k] = v`, k reads as v and every other key reads as before. |
| Utils.CollectedLookup | src/lib/utils.ts:141-145 | After assigning members one by one, a key reads as the last assigned value for it, or as before when none was assigned. |
| Utils.KeysToCamelObject | src/lib/utils.ts:132-146 | On an object, a key k is absent exactly when no input key camelizes to k. Otherwise it reads as the converted value of the last input member whose key camelizes to k. |
| Utils.KeysToCamelKeys | src/lib/utils.ts:132-146 | Every output key is the camel form of some input key, and the camel form of every input key is present. |
| Utils.CollectedDistinctIsAppend | src/lib/utils.ts:141-145 | With no key collisions the reduce keeps every pair in order. |
| Utils.KeysToCamelIsCamelized | src/lib/utils.ts:132-146 | No key anywhere in the result has a `[-_][a-z]` pair. |
| Utils.CamelizedUnchanged | src/lib/utils.ts:132-146 | A value already camel-cased throughout is unchanged. |
| Utils.KeysToCamelIdempotent | src/lib/utils.ts:132-146 | Converting twice is converting once. |
| Utils.CollidingKeysMerge | src/lib/utils.ts:141-145 | Keys that camel-case alike merge, and the last value wins. |

## Left out

- Rendering, routing and navigation are not modelled. A redirect is a predicate (`Checkout.RedirectToCart`), and an alert is a returned value (`AllOrders.Follow`).
- Network requests are inputs rather than calls. A reply is a value (`Js.Reply`, `OrderOutcome`, `IntentOutcome`, `UpdateResult`, `SaveResult`, `StatusReply`, `ProductReply`). The payment hook is not modelled, because its outcomes are inputs of the checkout.
- Storage is a slot per key: missing, unparseable, or a value. JSON serialisation and `safeJsonParse` are not modelled.
- Timers are not modelled: the UPI and status-check delays, the one-second cart clear, `debounce`, and the `lastFetchId` stale-response check. A handler runs to completion; a scheduled timer is an effect flag, and the verification timer is its own event.
- The search request's reply handling (products, totals, pages) is not modelled. Only its query is.
- Shipping-form and card field editing (`handleChange` in the checkout) is not modelled: the card details are a parameter of the submission. The QR code, the payment reference and the INR conversion are not modelled either.
- `verifyUpiPayment` is not modelled. Its result is ignored by the source, so verification always completes.
- Money is `real`. Floating-point rounding is not modelled, except in `Math.round`, written as floor(x + 0.5). The checkout's shipping fee and tax are not modelled.
- Case mapping covers ASCII only. `Number`, `new URL` and `parseFloat` are parameters: the form validator takes a number parser and a URL predicate. Page numbers use the modelled `parseInt`.
- Non-string JSON used as text (an error message, an id) is treated as absent, where JavaScript would convert it with `String`.
- `ProductForm.TagsJson` writes the tags as a JSON array without escaping quotes or backslashes inside a tag.
- Filling a form from existing data is not modelled: the product form from `initialData`, and the account form from the user.
- The product page's copy of `originalPrice` and `createdAt` (src/pages/ProductDetail.tsx:48-54) is not modelled. Neither is `handleAddToCart`, which delegates to the modelled `UseCart.AddItem`.
- `ProductCard`'s direct dispatch of `addToCart`, which skips the stock guard, is a caller of `CartSlice.CartStore.AddToCart`. It is not modelled separately.
- The dashboard and order pages' fetch effects are not modelled. Neither are the account page's profile and order fetches.
- `UseCart.CreateOrder`'s exception branch is not modelled: it can only be reached if the request hook throws, and that hook catches every error and resolves to null.
- UseProducts.ProductsOf: a `products` field that is truthy but not an array is stored as the empty list. The source stores that value itself, which its `Product[]` type rules out.
- ProductData.OnSale: only null and booleans are coerced to numbers. A string, array or object in `discount`, `price` or `originalPrice` does not compare as a number in the model, where JavaScript would convert it.
- String lengths count Dafny characters, where JavaScript's `.length` counts UTF-16 code units. A character outside the Basic Multilingual Plane counts once here and twice in the source. This affects `Utils.Truncated`, the six-character password rule (`Account.Rule`) and the sixteen-character card rule (`Checkout.ValidCard`).
- ProductData.BuildQuery: the result is the list of parameters. `URLSearchParams.toString` form-encoding (percent-escapes, `+` for a space) is not modelled, and neither is the `?` the caller adds.
- Dashboard.Computed: carries no contract of its own. Its properties are stated by `Dashboard.ComputedFacts`, and its average by `Dashboard.Average`.

## Source behaviour worth noting

Behaviours of the code that a reader might not expect. The model follows each of them:

- The shipping form is submitted without any field validation (src/pages/Checkout.tsx:92-95).
- A failed card payment and a failed UPI verification do not stop the checkout: the page completes anyway (src/pages/Checkout.tsx:150-158, src/pages/Checkout.tsx:225-232).
- A retry after a failed payment intent does not create a second order. Because the order id is already set, it also skips the intent and processes the card with an empty payment id (`Checkout.RetryAfterIntentFailure`).
- A product load that finds nothing leaves the counter and the image where they were (src/pages/ProductDetail.tsx:39-43).
- The admin status alert interpolates "undefined" when a failed reply has no error text (src/pages/admin/AllOrders.tsx:43).
- The dashboard keeps its previous statistics when the order list becomes empty (src/pages/admin/Dashboard.tsx:25).
