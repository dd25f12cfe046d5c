# Desi Farms shop, modelled in Dafny

Desi Farms is a small dairy shop. A Flask back end keeps users, products,
cart lines, orders with their items, wishlist rows and coupon offers in a
database. A React front end lets customers browse, fill a cart, apply a
coupon, place and cancel orders and keep a wishlist. An admin manages the
catalogue, stock and order status.

The model has two halves.

- **The back end** (`auth_routes`, `product_routes`, `cart_routes`,
  `order_routes`, `wishlist_routes`, `offer_routes`). Each route handler is a
  pure function `XxxOn(tables, request...)` that returns the new tables and
  the reply (status code plus body or message). A `Db.Store` class holds the
  tables, and a method per handler changes the store as that function says.
  Lemmas prove that each handler keeps the table invariants (`Db.Valid`):
  ascending unique ids, one cart line per user and product, positive cart
  quantities, unique emails and offer codes, and items that belong to
  orders. Stock is not one of them, because adding or editing a product
  accepts a negative stock; the separate lemma
  `OrderRoutes.PlaceOrderKeepsStockNonNegative` proves that placing an
  order never drives a stock below zero. Other lemmas prove the
  handlers' promises: round trips such as register then login, place then
  cancel, and add then remove.
- **The front end** (`api_client`, `app_routes`, `client_data`, `layout`,
  `admin_layout`, `login_page`, `register_page`, `products_page`,
  `product_card`, `cart_page`, `orders_page`, `wishlist_page`,
  `admin_dashboard`). Each page is a class whose fields are its React
  state. The browser's storages, redirects and window events are a
  `Browser` object. A handler is a method that takes the outcome of its
  request as a parameter: a decoded body or a `Failure`. Lemmas connect
  the pages to the handlers. For example, the list a page keeps after a
  local update is the list the server would now return. Other lemmas say
  what the server stores for the body a page sends.

Integers stand for prices and quantities. Coupon amounts are reals.
Strings are sequences of characters.

## Model

| member | source | states |
|---|---|---|
| AuthRoutes.HashChecksOnlyItsPassword | backend/routes/auth.py:52-60 | a stored password hash accepts exactly the password it was made from |
| AuthRoutes.UserByEmail | backend/routes/auth.py:48 | the lookup finds the first user with that email, and finds none exactly when no user has it |
| AuthRoutes.PasswordPatternRule | backend/routes/auth.py:33-41 | the password regex accepts exactly eight or more characters from its class that include a symbol, with an optional single final line break |
| AuthRoutes.TrailingLineBreakAccepted | backend/routes/auth.py:33-41 | the regex lets through a password that ends in a line break, because `$` matches before a final "\n" |
| AuthRoutes.RegisterRefusal | backend/routes/auth.py:17-49 | register's refusals come in the handler's order: no body, a missing field, a weak password, a mismatched confirmation, an email already taken; none of them fires exactly when all checks pass |
| AuthRoutes.RegisterOn | backend/routes/auth.py:14-64 | every refusal is a 400 that changes nothing; acceptance is a 201 that appends exactly one user |
| AuthRoutes.RegisterStores | backend/routes/auth.py:20-30 | the stored user has the trimmed name, the trimmed lower-cased email, the hash of the password and the role: the client's string, "parent" when the key is absent, and the column default "user" (backend/models.py line 78) when the key is null |
| AuthRoutes.RegisterKeepsValid | backend/models.py:76 | registering keeps emails unique and ids ascending |
| AuthRoutes.Register | backend/routes/auth.py:14-64 | the store's new state and the reply are those of RegisterOn, and the invariants hold |
| AuthRoutes.LoginOn | backend/routes/auth.py:71-101 | a missing body or field is a 400; login succeeds exactly when a user with the normalised email exists and the password's hash matches; any other case is 401 "Invalid email or password"; success carries a token for str(user.id) and the user's name, email and role |
| AuthRoutes.LoginIdentityRoundTrip | backend/routes/auth.py:91 | the token's identity, read back with int(), is the id of the user who signed in |
| AuthRoutes.FindUserAt | backend/models.py:71-81 | with ascending ids, the user looked up by row k's id is row k |
| AuthRoutes.RegisterThenLogin | backend/routes/auth.py:14-101 | after registering, a login with the same email in any spacing or case succeeds exactly with the registered password, as the new user |
| AuthRoutes.UserByEmailAppend | backend/routes/auth.py:48-60 | a user appended with a new email is the one that email finds |
| AuthRoutes.RegisterSameEmailRefused | backend/routes/auth.py:48-49 | a second registration whose email differs only in spacing or case is refused with "User already exists" |
| ProductRoutes.GetProducts | backend/routes/products.py:228-243 | lists one record per product, in table order |
| ProductRoutes.GetProductsListsEveryProduct | backend/routes/products.py:228-243 | every product is listed with all eight fields, and nothing else is listed |
| ProductRoutes.RoundHalfEven | backend/routes/products.py:265-269 | Python's round(n / d): within half of n / d, with ties going to the even integer |
| ProductRoutes.DiscountOf | backend/routes/products.py:265-269 | the stored discount is the rounded markdown percentage when the original price is above the price, else 0; a division by zero fails |
| ProductRoutes.DiscountIsNearestPercent | backend/routes/products.py:265-269 | for non-negative prices the stored discount is within half a percentage point of the exact markdown |
| ProductRoutes.AdminRefusal | backend/routes/products.py:255-256 | a caller who is not a user raises (500); a user whose role is not "admin" is refused with 403 |
| ProductRoutes.NewProduct | backend/routes/products.py:258-299 | the inserted product has the form's fields, the defaults for absent ones, and the computed discount; a field that does not convert fails |
| ProductRoutes.AddProductOn | backend/routes/products.py:251-299 | add_product is refused for non-admins and for bad fields without any change; otherwise it appends exactly the new product with 201 |
| ProductRoutes.AddProductDefaults | backend/routes/products.py:258-299 | a new product takes the fresh id, the form's name and unit, no image and category "Dairy"; an absent price is 0, an absent original price is the price, an absent stock is 0, and no markdown means discount 0 |
| ProductRoutes.AddProductKeepsValid | backend/routes/products.py:251-299 | adding a product keeps the invariants |
| ProductRoutes.AddProduct | backend/routes/products.py:251-299 | the store's new state and reply are those of AddProductOn |
| ProductRoutes.Edited | backend/routes/products.py:316-331 | an update keeps absent numbers, always replaces name and unit, and recomputes the discount |
| ProductRoutes.UpdateProductOn | backend/routes/products.py:307-346 | a missing product is 404; an accepted update rewrites only the product with that id |
| ProductRoutes.UpdateProductKeepsAbsentFields | backend/routes/products.py:316-331 | fields the form leaves out keep their values, and the discount matches the new prices |
| ProductRoutes.UpdateProductKeepsValid | backend/routes/products.py:307-346 | an update keeps the invariants |
| ProductRoutes.UpdateProduct | backend/routes/products.py:307-346 | the store's new state and reply are those of UpdateProductOn |
| ProductRoutes.DeleteProductOn | backend/routes/products.py:354-366 | a missing product is 404; a product still named by a cart or wishlist row fails at commit; otherwise exactly that product is removed |
| ProductRoutes.DeleteProductGone | backend/routes/products.py:354-366 | after a delete the catalogue no longer lists the product, and order items naming it remain |
| ProductRoutes.DeleteProductKeepsValid | backend/routes/products.py:354-366 | deleting keeps the invariants |
| ProductRoutes.DeleteProduct | backend/routes/products.py:354-366 | the store's new state and reply are those of DeleteProductOn |
| ProductRoutes.UpdateStockOn | backend/routes/products.py:370-406 | non-admins get 403, a missing product 404, a missing stock 400 "Stock value required", an unconvertible one 400 "Invalid stock value", a negative one 400 "Stock cannot be negative"; otherwise only that product's stock changes, to int() of the value |
| ProductRoutes.UpdateStockKeepsStockNonNegative | backend/routes/products.py:385-388 | a stock update never makes a stock negative and touches no other product |
| ProductRoutes.UpdateStockKeepsValid | backend/routes/products.py:370-406 | a stock update keeps the invariants |
| ProductRoutes.UpdateStock | backend/routes/products.py:370-406 | the store's new state and reply are those of UpdateStockOn |
| CartRoutes.PairIndex | backend/routes/cart.py:29 | finds the first line of this user for this product, and none exactly when there is none |
| CartRoutes.QuantityOfLine | backend/models.py:130-144 | with one line per pair, a line's quantity is the user's quantity of its product |
| CartRoutes.OwnLineIndex | backend/routes/cart.py:93 | finds the line with this id only when it belongs to this user |
| CartRoutes.AddToCartOn | backend/routes/cart.py:12-44 | refuses a missing product id, a quantity below 1, an unknown product and a request above the stock, without change; adds to an existing line (checking the sum against the stock) or appends a new line; an add that passes every check always succeeds (Ok exactly when all checks pass) |
| CartRoutes.AddedCartsQuantities | backend/routes/cart.py:29-41 | growing the existing line or appending a new one raises the pair's quantity by the request and leaves every other pair's quantity alone |
| CartRoutes.AddedCartsValid | backend/routes/cart.py:29-41 | growing or appending by a positive quantity keeps one line per pair, positive quantities and ascending ids |
| CartRoutes.AddToCartKeepsValid | backend/routes/cart.py:12-44 | adding keeps one line per pair, positive quantities and ascending ids |
| CartRoutes.AddToCart | backend/routes/cart.py:12-44 | the store's new state and reply are those of AddToCartOn |
| CartRoutes.EntryOf | backend/routes/cart.py:57-71 | a line is listed with its product's name and price and subtotal price × quantity, and is skipped when the product is gone |
| CartRoutes.EntriesListLines | backend/routes/cart.py:51-77 | every line whose product still exists is listed with its item, and every listed item comes from one of the lines; lines whose product is gone are skipped |
| CartRoutes.ListLines | backend/routes/cart.py:55-75 | the loop over the lines produces exactly Entries of those lines, and the total is the sum of the listed subtotals |
| CartRoutes.GetCart | backend/routes/cart.py:51-77 | the loop lists the user's lines with their products, and the total is the sum of the subtotals |
| CartRoutes.UpdateCartItemOn | backend/routes/cart.py:84-113 | a quantity below 1 is 400, someone else's or an unknown line 404, a quantity above the stock 400; an update of one's own line within its product's stock always succeeds (Ok exactly then), and only that line's quantity changes |
| CartRoutes.UpdateCartItemSetsQuantity | backend/routes/cart.py:84-113 | after a successful update the user's quantity of that product is the requested one, and every other pair keeps its quantity |
| CartRoutes.UpdateCartItemKeepsValid | backend/routes/cart.py:84-113 | an update keeps the cart invariants |
| CartRoutes.UpdateCartItem | backend/routes/cart.py:84-113 | the store's new state and reply are those of UpdateCartItemOn |
| CartRoutes.RemoveItemOn | backend/routes/cart.py:120-130 | Ok exactly when the user owns a line with that id, which then disappears while nothing else changes; another user's or an unknown line is 404 |
| CartRoutes.ClearCartOn | backend/routes/cart.py:137-143 | every line of the user disappears and other users' lines stay |
| CartRoutes.ClearCartEmptiesCart | backend/routes/cart.py:137-143 | after clearing, the user holds no unit of any product, and other users' carts are untouched |
| CartRoutes.RemoveItem | backend/routes/cart.py:120-130 | the store's new state and reply are those of RemoveItemOn |
| CartRoutes.ClearCart | backend/routes/cart.py:137-143 | the store's new state and reply are those of ClearCartOn |
| OrderRoutes.Destock | backend/routes/orders.py:71-82 | each product's stock goes down by the units of that product across the cart lines |
| OrderRoutes.Restock | backend/routes/orders.py:372-375 | each product's stock goes up by the units of that product across the order's items |
| OrderRoutes.FirstProblem | backend/routes/orders.py:40-46 | no refusal exactly when every line's product exists and is within stock |
| OrderRoutes.NewItems | backend/routes/orders.py:71-82 | one item per line, with consecutive ids, the line's units and the product's current price |
| OrderRoutes.CheckCart | backend/routes/orders.py:38-47 | the first loop reports the first refusal in cart order, or else the total of the lines at current prices |
| OrderRoutes.TakeStock | backend/routes/orders.py:71-82 | the second loop leaves the products destocked by the lines and the items extended by one item per line |
| OrderRoutes.PlaceOrderOn | backend/routes/orders.py:19-92 | an empty cart, a missing product, a line above its stock and a taken invoice number are refused without change; otherwise the order is committed |
| OrderRoutes.PlaceOrderAccepted | backend/routes/orders.py:19-92 | a non-empty cart within stock with a fresh invoice number is always accepted |
| OrderRoutes.PlaceOrderEffect | backend/routes/orders.py:53-87 | an accepted order appends one pending order for the user, adds one item per line, destocks the products and empties only this user's cart |
| OrderRoutes.PlaceOrderRecordsCartTotal | backend/routes/orders.py:53-65 | the order's total is the cart total GET /api/cart shows, and its status is "Pending" |
| OrderRoutes.PlaceOrderKeepsStockNonNegative | backend/routes/orders.py:38-82 | placing an order never drives a stock below zero |
| OrderRoutes.PlaceOrderKeepsValid | backend/routes/orders.py:19-92 | placing an order keeps every invariant |
| OrderRoutes.PlaceOrder | backend/routes/orders.py:19-92 | the store's new state and reply are those of PlaceOrderOn, and the invariants hold |
| OrderRoutes.OrderHistoryOn | backend/routes/orders.py:99-112 | the history has one summary per order of the user |
| OrderRoutes.OrderHistoryIsUsersOrders | backend/routes/orders.py:99-112 | an order is in the history exactly when it belongs to the user |
| OrderRoutes.OrderHistoryNewestFirst | backend/routes/orders.py:101 | the history runs from the newest order to the oldest |
| OrderRoutes.AllOrdersOn | backend/routes/orders.py:146-166 | every order is listed, latest first |
| OrderRoutes.GetAllOrders | backend/routes/orders.py:146-166 | non-admins get 403; admins get every order, newest first |
| OrderRoutes.OrderIndex | backend/routes/orders.py:127 | finds the order with that id, and none exactly when no order has it |
| OrderRoutes.UpdateOrderStatusOn | backend/routes/orders.py:119-139 | non-admins get 403, an unknown order 404, a missing or empty status 400, all without change; every other request succeeds (Ok exactly then), setting any non-empty status whatever the current one, and only that order's status changes |
| OrderRoutes.Restatus | backend/routes/orders.py:136 | the order with that id takes the status and every other order is unchanged |
| OrderRoutes.UpdateOrderStatus | backend/routes/orders.py:119-139 | the store's new state and reply are those of UpdateOrderStatusOn |
| OrderRoutes.OwnOrderIndex | backend/routes/orders.py:176 | finds the order with that id only when it belongs to this user |
| OrderRoutes.InvoiceLineOf | backend/routes/orders.py:181-188 | an invoice line has the recorded price and quantity and their product as subtotal, and the product's name or "Deleted Product" |
| OrderRoutes.GetInvoice | backend/routes/orders.py:173-205 | someone else's or an unknown order is 404; the user's own order is always returned (Ok exactly then) with one line per item and their total |
| OrderRoutes.CancelOrderOn | backend/routes/orders.py:357-379 | an unknown or foreign order is 404, a non-pending one 400, both without change; Ok exactly for the user's own pending order, which becomes "Cancelled" and whose units return to stock |
| OrderRoutes.CancelOrderKeepsValid | backend/routes/orders.py:357-379 | cancelling keeps every invariant |
| OrderRoutes.GiveBack | backend/routes/orders.py:372-375 | the loop returns each item's units to its product's stock |
| OrderRoutes.CancelOrder | backend/routes/orders.py:357-379 | the store's new state and reply are those of CancelOrderOn |
| OrderRoutes.AddItemsQty | backend/routes/orders.py:71-82 | the items of a new order carry, product by product, the units of the cart lines |
| OrderRoutes.RestockUndoesDestock | backend/routes/orders.py:71-82 | putting back the units that were taken gives the original products |
| OrderRoutes.PlaceThenCancelRestoresStock | backend/routes/orders.py:19-379 | cancelling an order right after placing it gives every product its stock back |
| OrderRoutes.CancelTwiceRefused | backend/routes/orders.py:364-366 | a cancelled order cannot be cancelled again, so its units return once |
| OfferRoutes.NewOffer | backend/routes/offer_routes.py:13-20 | the inserted offer has the upper-cased code, the given fields, min_amount 0 by default, and is active |
| OfferRoutes.CreateOfferOn | backend/routes/offer_routes.py:9-25 | a missing key, a bad date or a taken code fails with 500 and no change; otherwise exactly the new offer is appended |
| OfferRoutes.CreateOfferKeepsValid | backend/routes/offer_routes.py:9-25 | creating an offer keeps codes unique and ids ascending |
| OfferRoutes.CreateOffer | backend/routes/offer_routes.py:9-25 | the store's new state and reply are those of CreateOfferOn |
| OfferRoutes.ActiveOfferIndex | backend/routes/offer_routes.py:35 | finds the first active offer with that code, and none exactly when there is none |
| OfferRoutes.ApplyOfferOn | backend/routes/offer_routes.py:29-56 | the guards fire in order (unknown code, expired, minimum not reached, all 400); success gives the discount the matched offer takes off the total (a percentage of it, or the flat value) and the total minus that discount |
| OfferRoutes.PercentageStaysWithinTotal | backend/routes/offer_routes.py:46-51 | a percentage offer of at most 100 on a non-negative total takes off between 0 and the whole total |
| OfferRoutes.FlatDiscountCanGoNegative | backend/routes/offer_routes.py:48-51 | a flat offer worth more than the total gives a negative final amount |
| OfferRoutes.CreatedOfferApplies | backend/routes/offer_routes.py:9-56 | a created offer is found by its code in any letter case and, before expiry on a total reaching its minimum, applies with its own discount |
| WishlistRoutes.WishPairIndex | backend/routes/wishlist.py:23 | finds this user's row for this product, and none exactly when there is none |
| WishlistRoutes.OwnRowIndex | backend/routes/wishlist.py:77 | finds the row with that id only when it belongs to this user |
| WishlistRoutes.AddToWishlistOn | backend/routes/wishlist.py:12-35 | an unknown product is 404, a product already listed 400, both without change; otherwise one row is appended with 201 |
| WishlistRoutes.AddToWishlistKeepsValid | backend/routes/wishlist.py:12-35 | adding keeps one row per user and product |
| WishlistRoutes.AddToWishlistTwiceRefused | backend/routes/wishlist.py:22-25 | adding the same product again is refused and changes nothing |
| WishlistRoutes.AddToWishlist | backend/routes/wishlist.py:12-35 | the store's new state and reply are those of AddToWishlistOn |
| WishlistRoutes.EntriesFor | backend/routes/wishlist.py:50-63 | lists one entry per row whose product exists, in order |
| WishlistRoutes.WishlistOn | backend/routes/wishlist.py:42-65 | lists the user's rows, latest first, without those whose product is gone |
| WishlistRoutes.WishlistIsOwnRows | backend/routes/wishlist.py:42-65 | an entry is listed exactly when it stands for one of the user's rows whose product exists |
| WishlistRoutes.WishlistNewestFirst | backend/routes/wishlist.py:48 | entries come latest row first |
| WishlistRoutes.ListRows | backend/routes/wishlist.py:51-63 | the loop over the rows lists, in the same order, an entry for exactly the rows whose product still exists |
| WishlistRoutes.GetWishlist | backend/routes/wishlist.py:42-65 | the loop's result is WishlistOn |
| WishlistRoutes.RemoveFromWishlistOn | backend/routes/wishlist.py:72-84 | the user's row with that id disappears and nothing else changes; another user's row is 404 |
| WishlistRoutes.RemoveFromWishlistKeepsValid | backend/routes/wishlist.py:72-84 | removing keeps the invariants |
| WishlistRoutes.AddThenRemoveRestores | backend/routes/wishlist.py:12-84 | removing the row just added gives back the tables as they were |
| WishlistRoutes.RemoveFromWishlist | backend/routes/wishlist.py:72-84 | the store's new state and reply are those of RemoveFromWishlistOn |
| ApiClient.ParseUser | frontend/src/App.js:17-23 | a stored user is read exactly when the text parses as a value |
| ApiClient.TokenOf | frontend/src/services/api.js:16-17 | the local token wins unless it is absent or empty; then the session's is used |
| ApiClient.AuthHeader | frontend/src/services/api.js:52-60 | a request carries "Bearer " plus the token exactly when a non-empty token is stored |
| ApiClient.Browser.SetToken | frontend/src/services/api.js:20-36 | the token goes to the chosen storage and leaves the other; an empty token leaves both; getToken then reads it back; "auth-changed" is dispatched |
| ApiClient.Browser.ClearAuth | frontend/src/services/api.js:39-46 | both storages lose token and user, no header is sent, and "auth-changed" is dispatched |
| ApiClient.Browser.OnError | frontend/src/services/api.js:68-97 | only a 401 clears the sign-in; /login is requested at most once per page load and never from /login; the redirect flag stays in step with the requests |
| AppRoutes.UserPage | frontend/src/App.js:77-140 | exactly five paths are user pages |
| AppRoutes.Route | frontend/src/App.js:55-160 | the sign-in pages render only when signed out, user pages exactly when signed in, the admin page only for a signed-in admin; signed-out visitors are redirected to /login |
| AppRoutes.RouteSettles | frontend/src/App.js:55-160 | every path renders a page after at most two redirects |
| AppRoutes.AppState.SyncAuth | frontend/src/App.js:26-46 | the app re-reads token and user from localStorage only, and counts a sign-in exactly when a non-empty local token exists |
| AppRoutes.SessionTokenIsNotASignIn | frontend/src/App.js:16 | a token kept only in sessionStorage authorises requests, yet /cart redirects to /login |
| ClientData.FirstArray | frontend/src/components/Layout.js:45-52 | the result is the items of the first candidate that is an array, or [] when none is |
| ClientData.ErrorOr | frontend/src/pages/Cart.js:136 | the reply's non-empty "error", else the fallback |
| ClientData.MessageOr | frontend/src/pages/Wishlist.js:46 | the reply's non-empty "message", else the fallback |
| ClientData.MessageOrError | frontend/src/pages/Login.js:58-62 | "message", else "error", else the fallback |
| ClientData.ItemCountIsSum | frontend/src/pages/Cart.js:37-40 | with no zero quantity, the item count is the plain sum of the quantities |
| ClientData.ItemCountAtLeastLength | frontend/src/pages/Cart.js:37-40 | with no negative quantity, every item counts at least once |
| Layout.CartBadge | frontend/src/components/Layout.js:34-43 | the badge sums the items' units; a body without items shows 0 |
| Layout.CartBadgeCountsUnits | frontend/src/components/Layout.js:34-43 | on a body GET /api/cart sends, the badge is the number of units in the user's cart |
| Layout.NormalizeWishlist | frontend/src/components/Layout.js:45-52 | the body itself, or the first of four members that is an array |
| Layout.SearchLink | frontend/src/components/Layout.js:106-112 | "q" is present exactly when the trimmed search is non-empty, and "cat" exactly when the category is |
| Layout.ProductsUrl | frontend/src/components/Layout.js:111 | the address has a "?" exactly when there are parameters |
| Layout.SearchReachesCatalogue | frontend/src/components/Layout.js:106-112 | the catalogue reads back the lower-cased trimmed search |
| Layout.Frame.FetchCart | frontend/src/components/Layout.js:34-43 | the badge is set from the body, or 0 on failure |
| Layout.Frame.FetchWishlist | frontend/src/components/Layout.js:54-66 | the badge is the length of the normalised list, or 0 on failure |
| Layout.Frame.SyncAuth | frontend/src/components/Layout.js:19-23 | losing the token clears both badges; gaining it fetches both |
| Layout.Frame.OnCartUpdated | frontend/src/components/Layout.js:67-88 | the listener refreshes the cart badge only while a token is held |
| Layout.Frame.OnWishlistUpdated | frontend/src/components/Layout.js:67-88 | the listener refreshes the wishlist badge only while a token is held |
| Layout.Frame.SearchTarget | frontend/src/components/Layout.js:106-112 | the search goes to the catalogue with the frame's search and category |
| Layout.Frame.HandleLogout | frontend/src/components/Layout.js:90-102 | both storages are cleared, the badges are 0, and the page is replaced by /login |
| AdminLayout.IsActiveMeans | frontend/src/components/AdminLayout.js:26-27 | a menu path is active exactly on the path itself or below it after a slash |
| AdminLayout.Title | frontend/src/components/AdminLayout.js:29-30 | the title is the first active entry's label, or "Admin" when none is active or the label is empty |
| AdminLayout.FrameUser | frontend/src/components/AdminLayout.js:9-16 | the local user wins; an empty local value falls through to the session's; unparsable text gives no user |
| AdminLayout.DisplayName | frontend/src/components/AdminLayout.js:73 | the user's non-empty name, else "Admin" |
| AdminLayout.HandleLogout | frontend/src/components/AdminLayout.js:32-38 | token and user leave localStorage, sessionStorage is emptied, "auth-changed" is dispatched and the router goes to /login |
| LoginPage.Target | frontend/src/pages/Login.js:56 | an admin goes to /admin and everyone else to /products |
| LoginPage.OnMount | frontend/src/pages/Login.js:15-25 | the page moves on at mount exactly when a local token and a parsable user text exist |
| LoginPage.MountAgreesWithRouter | frontend/src/pages/Login.js:15-25 | where the mount effect sends a signed-in browser is where the router would send it from /login |
| LoginPage.LoginForm.HandleLogin | frontend/src/pages/Login.js:27-66 | blank inputs send nothing; a reply without a token stores nothing; a token stores token and user in localStorage and moves on; a failure shows the reply's words |
| LoginPage.Receive | frontend/src/pages/Login.js:39-62 | after the request, storage, events, error and target follow the reply; a failed request with a 401 clears both storages, announces the change and asks for /login once when no redirect is under way and the page is elsewhere, and any other failure leaves storage, events and history as they were |
| LoginPage.SignInAgreesWithRouter | frontend/src/pages/Login.js:52-56 | after a sign-in the router counts the browser as signed in and agrees with the page on where /login leads |
| LoginPage.PageLoginRefusal | frontend/src/pages/Login.js:31-62 | a body the page sends passes the endpoint's presence check, so a refusal is 401 and the page shows the endpoint's words |
| LoginPage.SignInStoresRole | frontend/src/pages/Login.js:52-53 | a successful sign-in stores a user with the role the account was registered with |
| RegisterPage.RulesPassed | frontend/src/pages/Register.js:26-39 | the count is 2 exactly when both rules hold and 0 exactly when neither does |
| RegisterPage.BackendAcceptedIsStrong | frontend/src/pages/Register.js:26-39 | every password the endpoint's pattern accepts passes the page's strength rule |
| RegisterPage.StrongButRefused | frontend/src/pages/Register.js:26-39 | the page passes a password with a space that the endpoint refuses |
| RegisterPage.RegisterForm.HandleChange | frontend/src/pages/Register.js:44-47 | one field takes the value and the error is cleared |
| RegisterPage.RegisterForm.HandleSubmit | frontend/src/pages/Register.js:49-79 | strength is checked first, then the match; a body is sent exactly when both pass, always with role "customer"; success schedules /login, failure shows the reply's message |
| RegisterPage.PageSignUpIsCustomer | frontend/src/pages/Register.js:67-70 | an account created from the page has the role "customer" and the normalised email |
| RegisterPage.PageSignUpRefusal | frontend/src/pages/Register.js:70-75 | the endpoint never refuses the page's body for a mismatch, and the page shows the endpoint's refusal words |
| ProductsPage.QueryParam | frontend/src/pages/Products.js:15-17 | a parameter is read trimmed and lower-cased, "" when absent |
| ProductsPage.FilteredProducts | frontend/src/pages/Products.js:41-50 | a product is shown exactly when its name contains the search and its category (default "Dairy") matches, in order |
| ProductsPage.Normalise | frontend/src/pages/Products.js:29 | a truthy "products" member is taken whatever it is; else an array body; else [] |
| ProductsPage.Page.Visible | frontend/src/pages/Products.js:41-50 | the shown cards are the filtered products while the state is an array |
| ProductsPage.Page.FetchProducts | frontend/src/pages/Products.js:24-39 | a body replaces the products and clears the error; a failure keeps them and says so |
| ProductsPage.AddToCart | frontend/src/pages/Products.js:66-81 | posts the id and quantity, alerts on both outcomes, and never throws to the card |
| ProductsPage.AddToWishlist | frontend/src/pages/Products.js:54-63 | posts to the wishlist, alerts on both outcomes, and never throws to the card |
| ProductsPage.ListedAll | backend/routes/products.py:228-243 | the page holds one record per listed product, in order |
| ProductsPage.CardReadsListing | frontend/src/components/ProductCard.js:9-11 | a card shows the stock and discount the endpoint lists |
| ProductsPage.CategoryFilterOnCatalogue | frontend/src/pages/Products.js:44-47 | the endpoint lists no category, so "dairy" filters nothing out and any other category shows nothing |
| ProductCard.DiscountOf | frontend/src/components/ProductCard.js:9 | the first of discount_percent and discount that is present and not 0, else 0 |
| ProductCard.Card.IncreaseQty | frontend/src/components/ProductCard.js:13-16 | the quantity goes up by one unless it has reached a non-zero stock, and stays within range |
| ProductCard.Card.DecreaseQty | frontend/src/components/ProductCard.js:18-20 | the quantity goes down by one but never below one |
| ProductCard.Card.AddToCart | frontend/src/components/ProductCard.js:23-51 | the request goes through the parent's handler or the card's own post; "cart-updated" is dispatched exactly on success |
| ProductCard.Card.AddToWishlist | frontend/src/components/ProductCard.js:54-76 | success dispatches "wishlist-updated"; a 400 reads as "already in wishlist"; other failures show the reply's message |
| CartPage.ItemCountOf | frontend/src/pages/Cart.js:37-40 | with every quantity at least one, the count is the number of units |
| CartPage.Payable | frontend/src/pages/Cart.js:42-44 | the coupon's final total while a discount is in force, else the cart total |
| CartPage.SetQuantity | frontend/src/pages/Cart.js:118-126 | only the addressed item takes the new quantity and subtotal; every other item is unchanged |
| CartPage.BillingErrors | frontend/src/pages/Cart.js:154-172 | a key has an error exactly when its check fails, with that check's message |
| CartPage.FormatChecksOverride | frontend/src/pages/Cart.js:154-172 | the format checks applied over the required check give exactly BillingErrors |
| CartPage.BillingValidIff | frontend/src/pages/Cart.js:154-172 | the form passes exactly when no field is blank, the phone is ten digits and the pincode six |
| CartPage.StepTarget | frontend/src/pages/Cart.js:505-548 | each step button leads away from the step that shows it |
| CartPage.CouponApplied | frontend/src/pages/Cart.js:175-190 | success takes the discount and the final amount (or the total when that is 0) and clears the error; failure resets to the total and shows the reply's "error" |
| CartPage.CouponAgreesWithServer | frontend/src/pages/Cart.js:175-190 | the payable amount shown is the server's total minus discount, except a final amount of 0 shows the whole total; a refusal shows the server's words |
| CartPage.BodyMember | frontend/src/pages/Cart.js:200-210 | the page's body has no member under any billing name the endpoint reads |
| CartPage.PlacedOrderFromPage | backend/routes/orders.py:31-65 | an order placed from the page stores no billing details, the page's payment option, and the cart's own total |
| CartPage.Requantify | backend/routes/cart.py:111 | only the line with that id takes the new quantity |
| CartPage.FilterRequantify | backend/routes/cart.py:51-113 | a new quantity keeps a line's owner, so it commutes with selecting a user's lines |
| CartPage.EntriesRequantify | backend/routes/cart.py:57-71 | listing the lines at the new quantity lists the items at the new quantity with recomputed subtotals |
| CartPage.QtyAgreesWithServer | frontend/src/pages/Cart.js:108-140 | the page's local update matches what GET /api/cart returns after the server accepts the same quantity |
| CartPage.Page.FetchCart | frontend/src/pages/Cart.js:49-62 | a body replaces items and total; the final total follows the total unless the calling closure saw a coupon; a failure empties the cart |
| CartPage.Page.OnCartUpdated | frontend/src/pages/Cart.js:78-93 | a reload through the first render's closure, so the final total resets to the cart total |
| CartPage.Page.FetchWishlist | frontend/src/pages/Cart.js:65-76 | an array body replaces the list; anything else empties it |
| CartPage.Page.QuantitySet | frontend/src/pages/Cart.js:118-130 | the item takes the quantity, the total is the sum of subtotals, the coupon is dropped and "cart-updated" is dispatched |
| CartPage.Page.UpdateQty | frontend/src/pages/Cart.js:108-140 | below one nothing is sent; success applies QuantitySet; failure alerts and reloads; no item is left busy |
| CartPage.Page.RemoveItem | frontend/src/pages/Cart.js:96-105 | sends DELETE /cart/remove/<id>; success reloads and dispatches "cart-updated" |
| CartPage.Page.HandleChange | frontend/src/pages/Cart.js:143-152 | the field takes the value and its error is blanked; choosing Online opens the UPI step and COD returns to the cart |
| CartPage.Page.ClickStep | frontend/src/pages/Cart.js:505-548 | a step button moves to its target step |
| CartPage.Page.ValidateBilling | frontend/src/pages/Cart.js:154-172 | the loop leaves exactly BillingErrors and reports valid exactly when there are none |
| CartPage.Page.ApplyCoupon | frontend/src/pages/Cart.js:175-190 | sends the code and the cart total; the coupon state becomes CouponApplied of the outcome |
| CartPage.Page.OrderPlaced | frontend/src/pages/Cart.js:205-215 | the order id is kept, the coupon dropped, an online payment returns to the UPI step, and the cart reloads |
| CartPage.Page.PlaceOrder | frontend/src/pages/Cart.js:193-223 | a body is sent exactly when the form is valid and the cart is not empty; it carries the form and the payable amount; the alerts follow the outcome |
| CartPage.Page.AddWishlistToCart | frontend/src/pages/Cart.js:241-255 | sends one unit; success dispatches "cart-updated" and reloads the cart; failure shows the reply's "error" |
| CartPage.Page.RemoveWishlistItem | frontend/src/pages/Cart.js:257-270 | success drops the item with that id and dispatches "wishlist-updated"; failure shows the reply's message |
| OrdersPage.DisplayStatus | frontend/src/pages/Orders.js:140 | an empty status shows as "Pending" |
| OrdersPage.StepIndex | frontend/src/pages/Orders.js:31-34 | a status's position among the four steps, or 0 when it is not a step |
| OrdersPage.ProgressIsPrefix | frontend/src/pages/Orders.js:184-219 | the ticked steps are a prefix ending at the order's status, and a connector is filled exactly between two ticked steps |
| OrdersPage.MarkCancelled | frontend/src/pages/Orders.js:70-98 | the order with that id is marked cancelled and the others stay as they were |
| OrdersPage.Page.FetchOrders | frontend/src/pages/Orders.js:12-24 | an array body replaces the orders, any other body empties them, a failure keeps them and alerts |
| OrdersPage.Page.CancelOrder | frontend/src/pages/Orders.js:70-98 | nothing without confirmation; success marks the order cancelled; failure shows the reply's words and reloads |
| OrdersPage.HistoryOfCancelled | backend/routes/orders.py:99-112 | marking the stored order cancelled marks its row of the history |
| OrdersPage.CancelAgreesWithServer | frontend/src/pages/Orders.js:70-98 | after a successful cancel, the page's list is what GET /api/orders would return |
| OrdersPage.CancelButtonMatchesServer | frontend/src/pages/Orders.js:140-142 | for a non-empty status, the server cancels exactly when the page offers Cancel; an empty status is offered Cancel and refused |
| WishlistPage.Page.FetchWishlist | frontend/src/pages/Wishlist.js:9-24 | an array body replaces the list, any other body empties it, a failure keeps it and alerts |
| WishlistPage.Page.RemoveItem | frontend/src/pages/Wishlist.js:36-49 | success drops the item with that id and dispatches "wishlist-updated"; failure alerts |
| WishlistPage.AddToCart | frontend/src/pages/Wishlist.js:52-64 | sends one unit; success dispatches "cart-updated" |
| WishlistPage.EntriesDropId | backend/routes/wishlist.py:50-63 | dropping rows by id and then listing is listing and then dropping entries by id |
| WishlistPage.RemovalAgreesWithServer | frontend/src/pages/Wishlist.js:36-49 | after a successful DELETE, the page's list is what GET /api/wishlist/ would return |
| AdminDashboard.NormalizeProducts | frontend/src/pages/AdminDashboard.js:41-45 | the body if it is an array, else its "products" member if that is one, else [] |
| AdminDashboard.FilteredProducts | frontend/src/pages/AdminDashboard.js:235-240 | a blank query keeps all products; otherwise exactly those whose lower-cased name contains the query, in order |
| AdminDashboard.FilteredOrders | frontend/src/pages/AdminDashboard.js:241-245 | an empty filter keeps every order; otherwise exactly those with that status, in order |
| AdminDashboard.StatsOf | frontend/src/pages/AdminDashboard.js:246-252 | the counters are the numbers of products, orders, pending orders and delivered orders |
| AdminDashboard.StatsBounded | frontend/src/pages/AdminDashboard.js:246-252 | pending plus delivered never exceeds the number of orders |
| AdminDashboard.WithStatus | frontend/src/pages/AdminDashboard.js:206-214 | the row with that id takes the status and the others stay |
| AdminDashboard.StatusUpdateAgreesWithServer | frontend/src/pages/AdminDashboard.js:206-214 | after a successful status update, the dashboard's list is what GET /api/orders/all would return |
| AdminDashboard.ListingRestatus | backend/routes/orders.py:136-166 | listing after a status change is the listing with that row changed |
| AdminDashboard.StockFieldNeverRefusedAsNegative | frontend/src/pages/AdminDashboard.js:192-202 | a number the stock field lets through is never refused by the server as negative |
| AdminDashboard.FormOf | frontend/src/pages/AdminDashboard.js:122-135 | the edit form shows the product's name, original price, discount percent, price, stock and unit, with no file chosen |
| AdminDashboard.SubmittedOf | frontend/src/pages/AdminDashboard.js:142-178 | an empty discount is sent as "0" and an empty price as the computed final price |
| AdminDashboard.Dashboard.FetchProducts | frontend/src/pages/AdminDashboard.js:47-60 | the products become the normalised body, or stay on failure with an error |
| AdminDashboard.Dashboard.FetchOrders | frontend/src/pages/AdminDashboard.js:61-72 | an array body replaces the orders; a failure keeps them with an error |
| AdminDashboard.Dashboard.UpdateStatus | frontend/src/pages/AdminDashboard.js:206-214 | the row changes only once the PUT succeeds |
| AdminDashboard.Dashboard.UpdateStock | frontend/src/pages/AdminDashboard.js:192-202 | NaN or a negative number sends nothing; success reloads the products and the page error follows the reload; a failed update alerts and keeps the products and the error |
| AdminDashboard.Dashboard.HandleChange | frontend/src/pages/AdminDashboard.js:84-102 | the field takes the value; the price is recomputed only when the original price or the discount changes |
| AdminDashboard.Dashboard.ResetForm | frontend/src/pages/AdminDashboard.js:104-115 | every field is empty, with no file and no product being edited |
| AdminDashboard.Dashboard.OpenEdit | frontend/src/pages/AdminDashboard.js:122-135 | the form is FormOf the product, which is being edited |
| AdminDashboard.Dashboard.HandleSubmit | frontend/src/pages/AdminDashboard.js:142-178 | a PUT when a product is being edited, else a POST; success closes and empties the form and reloads; failure keeps it open with the reply's words |
| AdminDashboard.Dashboard.HandleDelete | frontend/src/pages/AdminDashboard.js:180-190 | nothing without confirmation; success reloads the products and the page error follows the reload; a failed delete alerts and keeps the products and the error |

## Left out

- The PDF invoice (download_invoice in orders.py and the page's download button) is not modelled: it builds a document and streams a file.
- The invoice number of place_order comes from the clock. It is a parameter of PlaceOrderOn. Creation dates are not modelled.
- Image upload and the files saved for products are not modelled. The form keeps only whether a file is chosen.
- The seed route and the first, dead half of backend/routes/products.py are not modelled: the second half imports again and redefines the blueprint and every route, so only it is live.
- Password hashing and signed tokens are injective stand-ins (`Hash`, `TokenText`). No cryptography is modelled.
- Prices and quantities are unbounded integers. Coupon amounts and totals are reals. Python's round(x, 2) on offer amounts, the admin page's calculateFinalPrice and the revenue counter are floating point and are not modelled.
- Letter case is ASCII only, with no Unicode case folding. URL encoding of search parameters is a function parameter.
- Whitespace and digit classes are ASCII only. `Common.IsSpace` is the six ASCII characters that Python's str.strip() and JavaScript's trim() both remove; Python's strip() also removes \x1c-\x1f and Unicode spaces, and JavaScript's trim() removes Unicode spaces, none of which are modelled.
- AuthRoutes.PasswordPatternRule: the pattern's `\d` is read as the ASCII digits 0-9, while Python's `re` matches every Unicode decimal digit there, so a password holding such a digit (an Arabic-Indic three, say) is accepted by the backend but refused by the model.
- JSON values other than the shapes the pages test (arrays, objects, truthy scalars) are not modelled. Neither are members holding non-string values where a string is expected.
- React's asynchronous rendering is not modelled. Each handler runs to its end with the request outcomes given as parameters. A stale closure is modelled by passing the state it saw.
- The response interceptor (`ApiClient.Browser.OnError`) is applied only in LoginPage. The other pages receive a failure after it has run.
- Router matching is by exact path text.
- Alerts and confirmations are strings and booleans given to the methods.
- The pages Home, Contact and Invoice are not part of this model.
- Busy flags that only disable buttons (such as the wishlist page's busy id) are not modelled. Neither are show/hide toggles.
- The wishlist count beside the cart is not modelled.
- ProductRoutes.DiscountOf: ties are settled on the exact ratio (original - price) * 100 / original, while the source computes ((original - price) / original) * 100 in floating point, whose product can fall just below .5 (price 85, original 200: the source stores 57, the model 58); ProductRoutes.NewProduct, ProductRoutes.Edited and ProductRoutes.UpdateProductOn inherit this.
- RegisterPage.RegisterForm.HandleSubmit: the browser's own form validation is not modelled; the `required` attributes (frontend/src/pages/Register.js:132, 144, 158, 192) and `type="email"` (frontend/src/pages/Register.js:138) stop an empty or malformed field before the handler runs, so the handler's blank-field and rule messages are the model's only refusals.
- LoginPage.LoginForm.HandleLogin: the browser's check of `type="email"` (frontend/src/pages/Login.js:122) is not modelled; a malformed email reaches the handler in the model but not in a browser.
- RegisterPage.RulesPassed: the length rule counts characters of the modelled string, while JavaScript's `length` counts UTF-16 code units, so a password outside the Basic Multilingual Plane differs ("abcd🙂🙂@" is 9 units long to the page but 7 characters to the model).
- AdminDashboard.Dashboard.UpdateStock: the value `Infinity` that `Number()` accepts is not modelled; the stock field is a finite number or NaN.
- OfferRoutes.ApplyOfferOn: the two-place rounding of the discount and final amount is not modelled; the model returns the exact values.
