# E-commerce backend: shopping cart, checkout, catalogue, authentication and admin reports

This project models the server side of a small e-commerce application written for Node.js,
Express and SQLite. Its rules live in five controllers, one middleware and one route file:

- the **shopping cart**: list, add, change the quantity of, remove and clear the caller's items;
- **checkout**: turn the cart into an order, copy each line's price into the order items,
  take the bought quantities off stock and empty the cart;
- **order history**: the caller's own orders and, for administrators, all orders;
- the **product catalogue**: a filtered, paginated listing and a single product;
- **authentication**: the registration checks, login with one answer for every failure, the
  caller's profile, the bearer-token guard and the role guard;
- the **admin routes**: the user list, promotion to administrator and the sales report.

The SQLite tables (`users`, `categories`, `products`, `cart_items`, `orders`, `order_items`)
become sequences of rows held by the `Db.Store` class, together with the next value of
each autoincrement key. `Store.Snapshot()` packs them into a `Tables` value. Every handler
that writes is a method on the store. Its contract names the whole new snapshot, so
"nothing else changes" is part of each contract. Every handler also keeps `Store.Valid()`,
the table invariant:

- keys are unique and below their counter;
- emails are unique;
- every cart row points at a product and has a positive quantity;
- a user has at most one cart row per product;
- every order item carries an order id already issued (below the order counter) and points at a product.

Read-only handlers are functions over a `Tables` value. Each SQL query becomes a filter
(`Seqs.Keep`), an inner or left join, a sum (`Seqs.SumOf`), a newest-first sort
(`Seqs.SortDesc`) and a window (`LIMIT`/`OFFSET`).

The modules follow the source:

| module | file |
|---|---|
| `CartController` | `backend/src/controllers/cartController.js` |
| `OrderController` | `backend/src/controllers/orderController.js` |
| `ProductController` | `backend/src/controllers/productController.js` |
| `AuthMiddleware` | `backend/src/middleware/authMiddleware.js` |
| `AuthController` | `backend/src/controllers/authController.js` |
| `AdminRoutes` | `backend/src/routes/adminRoutes.js` |

Five helper modules support them:

- `Common`: an optional value; the JSON value of a request field, with JavaScript truthiness.
- `Http`: status codes and messages.
- `Seqs`: filtering, summing, sorting and `LIMIT`.
- `Crypto`: stand-ins for bcrypt and for signing JWTs.
- `Db`: the rows, the store and its invariant.

Request bodies are modelled by how the handlers test them:

- Cart and order bodies are JSON values, so `!productId`, `typeof quantity !== 'number'` and
  `!shipping_address` are decided as JavaScript decides them.
- Registration and login fields are optional strings.
- Query-string parameters are already parsed to integers.

## Model

| member | source | states |
|---|---|---|
| `CartController.GetCartItems` | backend/src/controllers/cartController.js:5-17 | answers 200 with the caller's rows only, one line per row, in table order, each joined to its product; the total is Σ price × quantity over those lines and 0 for an empty cart |
| `CartController.RowsOf` | backend/src/controllers/cartController.js:8-13 | `WHERE ci.user_id = ?`: every row kept is the caller's and comes from the cart, and every row of the caller's is kept |
| `CartController.FindCartRow` | backend/src/controllers/cartController.js:44-47 | finds the caller's row for a product, or establishes that there is none |
| `CartController.FindOwnedRow` | backend/src/controllers/cartController.js:87 | finds the row with a given id that belongs to the caller, or establishes that there is none |
| `CartController.JoinProducts` | backend/src/controllers/cartController.js:8-13 | the inner join of cart rows with products: when every row's product exists, one line per row, carrying that product's name and price |
| `CartController.LookupProduct` | backend/src/controllers/cartController.js:35 | a product is found exactly when the id reads as a number (a number, or `true`, which SQLite binds as 1) and some stored product has that id; the product found is a stored one with that id |
| `CartController.RequestedQuantity` | backend/src/controllers/cartController.js:27 | `quantity = 1` in the destructuring: an absent quantity becomes 1, and any given value is kept as it is |
| `CartController.ProductKey` | backend/src/controllers/cartController.js:35 | the integer the `?` placeholder binds: a number is itself, `true` is 1, and every other value matches no product id |
| `CartController.AddItemToCart` | backend/src/controllers/cartController.js:25-69 | quantity defaults to 1. A falsy productId, or a quantity that is not a positive number, gives 400. An unknown product gives 404. A quantity above stock gives 400. An existing row grows to old + quantity, or 400 if that exceeds stock. Otherwise exactly one new row is inserted with 201 and its id. Every error leaves the tables unchanged, and the table invariant, including one row per user and product, is kept |
| `CartController.SetQuantity` | backend/src/controllers/cartController.js:55-58 | the UPDATE (also the one of the PUT handler, line 101) changes only the quantity of the one addressed row to the given positive value; every other row and table is unchanged and the table invariant is kept |
| `CartController.InsertRow` | backend/src/controllers/cartController.js:63-66 | the INSERT appends one row with the next id, the caller, the product and the quantity, advances the id counter, and keeps the table invariant when the caller had no row for that product |
| `CartController.UpdateCartItemQuantity` | backend/src/controllers/cartController.js:77-105 | a quantity that is not a positive number gives 400. A row that is absent or belongs to another user gives 404. A quantity above stock gives 400. Otherwise that one row's quantity becomes exactly the given value and nothing else changes |
| `CartController.RemoveCartItem` | backend/src/controllers/cartController.js:114-128 | deletes the row matching both id and caller; zero affected rows gives 404 with the tables unchanged, the same answer for an absent row and another user's row |
| `CartController.DeleteOwned` | backend/src/controllers/cartController.js:119-124 | the DELETE keeps only rows of the old cart, none of them the row with that id and owner; the affected count is the number of rows removed, and it is 0 exactly when the cart is unchanged |
| `CartController.ClearCart` | backend/src/controllers/cartController.js:136-141 | always 200; the cart becomes the old cart without the caller's rows, and no other table changes |
| `CartController.WithoutUser` | backend/src/controllers/cartController.js:139 | `DELETE ... WHERE user_id = ?`: every row left comes from the cart and belongs to another user, and every other user's row is left |
| `CartController.KeepCartOk` | backend/src/controllers/cartController.js:119-122 | deleting any set of cart rows keeps the cart invariant |
| `CartController.CartOkAfterQuantityChange` | backend/src/controllers/cartController.js:55-58 | setting one row's quantity to a positive value keeps the cart invariant |
| `CartController.CartOkAfterInsert` | backend/src/controllers/cartController.js:62-66 | inserting a row for a stored product that the user does not yet have in the cart keeps the cart invariant, including one row per user and product |
| `CartController.ClearIsScopedToOwner` | backend/src/controllers/cartController.js:139 | after clearing, the caller has no rows and every other user's rows are exactly as before |
| `CartController.RemoveOnlyTheOwnedRow` | backend/src/controllers/cartController.js:119-126 | the delete affects one row, the caller's row with that id, when it exists, and otherwise none and leaves the cart as it was |
| `OrderController.JoinPrices` | backend/src/controllers/orderController.js:11-16 | the checkout query: one line per cart row whose product exists, carrying the row's product and quantity and the product's current price |
| `OrderController.CreateOrder` | backend/src/controllers/orderController.js:5-41 | a falsy shipping address gives 400 before anything is read. An empty cart gives 400. Both leave the tables unchanged. Otherwise it answers 201 with the new order id, the tables become exactly the checkout of the caller's cart, and the table invariant is kept |
| `OrderController.PlaceOrder` | backend/src/controllers/orderController.js:20-39 | the tables after checkout: exactly one order appended, with the next order id, the caller and the time; every earlier order and order item kept in place; the order counter advanced; users, categories, the cart counter and the catalogue's length untouched |
| `OrderController.PurchasedItems` | backend/src/controllers/orderController.js:28-32 | one order item per cart line, in line order, each carrying the new order's id, an item id taken from the counter, and that line's product, quantity and price as the price at purchase; the ids are pairwise distinct |
| `OrderController.PurchasedItemsSnoc` | backend/src/controllers/orderController.js:28-32 | one turn of the loop: handling line i appends exactly that line's item, with item id first + i, its product, quantity and price |
| `OrderController.Decrement` | backend/src/controllers/orderController.js:33-36 | one UPDATE: the catalogue keeps its length, no field but stock changes, and stock drops by the quantity for the addressed product only |
| `OrderController.DecrementAll` | backend/src/controllers/orderController.js:28-37 | the updates of the whole loop: the catalogue keeps its length and every field but stock |
| `OrderController.WriteOrder` | backend/src/controllers/orderController.js:21-39 | for a non-empty cart, the three writes (order row, per-line loop, cart deletion) leave the tables exactly as the checkout of the caller's cart describes, return the new order's id, and keep the table invariant |
| `OrderController.RecordPurchases` | backend/src/controllers/orderController.js:28-37 | the loop appends one order item per cart line, with the next item ids, and takes each line's quantity off its product's stock; no other table changes |
| `OrderController.StockAfterCheckout` | backend/src/controllers/orderController.js:33-36 | after the stock updates, every product's stock is its old stock minus the quantity of it bought, and the catalogue keeps its length and order |
| `OrderController.CatalogueIdsKept` | backend/src/controllers/orderController.js:33-36 | the stock updates keep the product invariant and the set of product ids |
| `OrderController.CheckoutBuysCartQuantity` | backend/src/controllers/orderController.js:11-16 | the quantity of a product bought at checkout is exactly the quantity in the caller's cart row for it, or 0 when there is none |
| `OrderController.PurchasedItemsSum` | backend/src/controllers/orderController.js:20-32 | Σ quantity × price at purchase over the new order items equals the order's total amount |
| `OrderController.OrderItemsTotal` | backend/src/controllers/orderController.js:28-32 | after the inserts, the items of the new order add up to its total, and the totals of all other orders are unchanged |
| `OrderController.CartAfterCheckout` | backend/src/controllers/orderController.js:39 | the cart without the caller's rows still satisfies the cart invariant against the updated catalogue |
| `OrderController.OrdersOkAfterAppend` | backend/src/controllers/orderController.js:22-32 | appending an order with fresh id and its items keeps the order invariant |
| `OrderController.OrdersAfterCheckout` | backend/src/controllers/orderController.js:22-37 | the order tables satisfy their invariant after checkout |
| `OrderController.CheckoutKeepsTablesOk` | backend/src/controllers/orderController.js:5-41 | checkout keeps the whole table invariant |
| `OrderController.CartTotalIsCheckoutTotal` | backend/src/controllers/orderController.js:20 | the total the cart page shows and the total checkout charges are computed over the same lines and are equal |
| `OrderController.CheckoutRecordsCartTotal` | backend/src/controllers/orderController.js:20-32 | checkout appends exactly one order whose total is the cart's total, with one order item per cart row, and the new order's items add up to that total |
| `OrderController.CheckoutStock` | backend/src/controllers/orderController.js:33-36 | each product's stock drops by exactly the caller's cart quantity for it, and is unchanged when it is not in the cart; there is no re-check |
| `OrderController.CheckoutEmptiesOnlyCallersCart` | backend/src/controllers/orderController.js:39 | after checkout the caller's cart is empty and every other user's rows are unchanged |
| `OrderController.StockCanGoNegative` | backend/src/controllers/orderController.js:33-36 | a valid store state in which checkout leaves a product with stock −2: a cart quantity of 2 against a stock of 0 |
| `OrderController.JoinItemProducts` | backend/src/controllers/orderController.js:58-61 | joins order items to product names: one line per item whose product exists, carrying the name, quantity and price at purchase |
| `OrderController.ItemLinesOf` | backend/src/controllers/orderController.js:57-63 | an order's item lines are exactly its own items, in table order, each with its product id, its product's name, its quantity and its purchase price |
| `OrderController.OrdersOf` | backend/src/controllers/orderController.js:52-55 | exactly the caller's orders, each as often as in the table (the same multiset), newest first |
| `OrderController.GetMyOrders` | backend/src/controllers/orderController.js:49-65 | answers 200; the loop gives each of the caller's orders, newest first, its own item lines |
| `OrderController.JoinUsers` | backend/src/controllers/orderController.js:76-78 | the inner join of orders with users: exactly the orders whose owner exists, in table order and each once, each carrying its owner's name |
| `OrderController.AllOrders` | backend/src/controllers/orderController.js:75-80 | the joined orders, newest first, as a permutation of the join |
| `OrderController.GetAllOrders` | backend/src/controllers/orderController.js:73-90 | answers 200; the loop gives every joined order, newest first, with owner name and its own item lines |
| `ProductController.FindCategory` | backend/src/controllers/productController.js:13 | finds the category a product points at, or establishes that there is none |
| `ProductController.ViewOf` | backend/src/controllers/productController.js:10-13 | the left join of a product with its category: the product's id, name, description, price, image URL and stock always, and the category's id and name only when that category exists, taken from that category |
| `ProductController.GetProductById` | backend/src/controllers/productController.js:58-72 | 200 with the product's view exactly when some product has that id, and 404 otherwise |
| `ProductController.ProductByIdIsThatRow` | backend/src/controllers/productController.js:61-72 | looking up a stored product's id answers that product's view |
| `ProductController.BuildQueries` | backend/src/controllers/productController.js:9-31 | the page query and the count query carry the same category filter; only the page query orders newest first and carries LIMIT and OFFSET, which are the given limit and offset |
| `ProductController.MatchingMembers` | backend/src/controllers/productController.js:18-22 | the WHERE clause keeps exactly the products of the requested category, or every product when none is requested |
| `ProductController.RunWithinMatching` | backend/src/controllers/productController.js:9-35 | running either query answers matching products only, each at most as often as it matches, and all of them when the query has no LIMIT/OFFSET |
| `ProductController.Window` | backend/src/controllers/productController.js:24-25 | LIMIT/OFFSET as SQLite reads them: a contiguous run from the offset, where a negative offset counts as 0 and a negative limit means no limit; the run stops at the limit or at the last row, and is empty only when the offset is past the end or the limit is 0 |
| `ProductController.CeilDiv` | backend/src/controllers/productController.js:46 | the fewest pages of the given size that hold all the rows: (pages − 1) × size < total ≤ pages × size, and 0 pages for no rows |
| `ProductController.TotalPages` | backend/src/controllers/productController.js:46 | `Math.ceil(total / limit)` as it reaches the JSON answer: null for a limit of 0, and otherwise the least whole number at or above the quotient, for either sign of the limit |
| `ProductController.PageRows` | backend/src/controllers/productController.js:7-25 | the page is matching products only, newest first, at most `limit` of them; it has rows exactly when the limit is not 0 and the offset (page − 1) × limit, read as 0 when negative, is before the last match |
| `ProductController.PageRowsAt` | backend/src/controllers/productController.js:7-25 | the page's i-th row is the match at position offset + i of the newest-first order, with the offset (page − 1) × limit read as 0 when negative, and the page never runs past the last match |
| `ProductController.PageRowsCount` | backend/src/controllers/productController.js:7-25 | the page's size is what SQL promises whatever the tie order: min(limit, matches − offset), at least 0, for a limit of 0 or more, and all matches after the offset for a negative limit; the page is a sub-multiset of the matches |
| `ProductController.WindowLength` | backend/src/controllers/productController.js:24-25 | the number of rows LIMIT/OFFSET yields, for every sign of limit and offset |
| `ProductController.WindowSubMultiset` | backend/src/controllers/productController.js:24-25 | LIMIT/OFFSET yields no row more often than the input has it |
| `ProductController.WindowOfSorted` | backend/src/controllers/productController.js:24 | a window of a newest-first list is newest first |
| `ProductController.PageNumber` | backend/src/controllers/productController.js:6 | `page = 1` when the query string has no page, and the given page otherwise |
| `ProductController.PageSize` | backend/src/controllers/productController.js:6 | `limit = 10` when the query string has no limit, and the given limit otherwise |
| `ProductController.Listing` | backend/src/controllers/productController.js:6-49 | page defaults to 1 and limit to 10, and both are echoed back. totalItems counts the matching products. totalPages is ⌈totalItems / limit⌉ for either sign of the limit, or null for a limit of 0. The page is exactly the views of `PageRows` for that page number and size, so at most `limit` rows. It has rows exactly when the limit is not 0 and the offset, read as 0 when negative, is before the last match. With a positive limit, that means exactly when something matches and currentPage ≤ totalPages |
| `ProductController.OffsetInsideIff` | backend/src/controllers/productController.js:7-46 | with a positive limit and ⌈total / limit⌉ pages, the offset of page n, read as 0 when negative, is before the last row exactly when there are rows and n is at most the number of pages |
| `ProductController.GetAllProducts` | backend/src/controllers/productController.js:5-50 | builds both queries and runs them; answers 200 with the listing above |
| `AuthMiddleware.FirstSpace` | backend/src/middleware/authMiddleware.js:11 | the first space of the header, or establishes that there is none |
| `AuthMiddleware.Split` | backend/src/middleware/authMiddleware.js:11 | `split(' ')`: at least one field, and no field contains a space |
| `AuthMiddleware.JoinSplit` | backend/src/middleware/authMiddleware.js:11 | splitting loses nothing: joining the fields with single spaces gives back the header |
| `AuthMiddleware.SplitTwoWords` | backend/src/middleware/authMiddleware.js:11 | `scheme token` splits into exactly those two fields |
| `AuthMiddleware.ExtractToken` | backend/src/middleware/authMiddleware.js:10-11 | no header gives no token. The empty header is falsy and passes through as an empty token. Any other header gives a token exactly when it has a space, and the token is then its second space-separated field, which never contains a space |
| `AuthMiddleware.ExtractBearer` | backend/src/middleware/authMiddleware.js:11 | the token is the second field whatever the first word is |
| `AuthMiddleware.Authenticate` | backend/src/middleware/authMiddleware.js:9-40 | 401 exactly when there is no token. 403 exactly when verification fails or the payload's id is falsy. Otherwise success with the user {id, role} taken from the payload |
| `AuthMiddleware.AuthenticateToken` | backend/src/middleware/authMiddleware.js:9-45 | on success writes exactly that user to `req.user` and passes the request on; on failure answers with the status and message and leaves `req.user` as it was |
| `AuthMiddleware.SignedTokenAuthenticates` | backend/src/middleware/authMiddleware.js:10-39 | a header `scheme token` whose token verifies to a payload with a non-zero id lets the request through with that id and role |
| `AuthMiddleware.AuthorizeRole` | backend/src/middleware/authMiddleware.js:51-63 | passes exactly when there is a user whose truthy role is in the allowed list. A missing user or role gives 403 "role missing". A role not listed gives 403 "role not allowed" |
| `AuthController.LooksLikeEmailIsPattern` | backend/src/controllers/authController.js:17 | the executable check agrees with the unanchored pattern `\S+@\S+\.\S+`: some substring is non-blanks, `@`, non-blanks, `.`, non-blanks |
| `AuthController.EmailPatternExamples` | backend/src/controllers/authController.js:17 | because the pattern is unanchored, text around an address is accepted; an address without a dot after the `@`, or with nothing before the `@`, is refused |
| `AuthController.ValidateRegistration` | backend/src/controllers/authController.js:12-22 | the checks run in order: any missing or empty field gives "fields required", then a failed pattern gives "invalid email", then a password under 6 characters gives "too short"; otherwise it passes. Each outcome holds exactly when its condition does |
| `AuthController.FindUserByEmail` | backend/src/controllers/authController.js:77 | finds the user with that email (the lookup of login; registration makes the same one at line 27), or establishes that there is none |
| `AuthController.RegisterUser` | backend/src/controllers/authController.js:9-57 | a validation failure gives 400 and a registered email gives 409, both with no insert. Otherwise exactly one user is inserted with the next id, role `customer` and a hashed password. The answer is 201 with a token for that id and role and the public user {id, name, email, role}. The table invariant is kept |
| `AuthController.NewUser` | backend/src/controllers/authController.js:34-44 | the inserted row: the next id, the given name and email, role `customer`, the insertion time, and a hash that accepts exactly the given password |
| `AuthController.AddUser` | backend/src/controllers/authController.js:38-41 | the users table grows by exactly that row at the end, the user counter advances by one, and no other table changes |
| `AuthController.AddUserKeepsUsersOk` | backend/src/controllers/authController.js:38-41 | inserting a user with the next id and an unused email keeps ids and emails unique |
| `AuthController.LoginUser` | backend/src/controllers/authController.js:68-102 | a missing or empty field gives 400. The only other failure is 401 "invalid credentials". It succeeds exactly when the email is registered and the password matches the stored hash, and then answers 200 with a token for that user's id and role and the public user |
| `AuthController.LoginFailuresLookAlike` | backend/src/controllers/authController.js:78-88 | an unknown email and a wrong password get the identical answer, 401 "invalid credentials" |
| `AuthController.RegisterThenLogin` | backend/src/controllers/authController.js:9-102 | after a successful registration, logging in with that email succeeds exactly with the registered password and answers the new user |
| `AuthController.GetMyProfile` | backend/src/controllers/authController.js:110-118 | 404 exactly when no user has the caller's id; otherwise 200 with that user's id, name, email, role and creation time |
| `Crypto.HashThenCompare` | backend/src/controllers/authController.js:84 | comparing an attempt against a hash made at registration (line 34) succeeds exactly when the attempt is the hashed password |
| `Crypto.GenerateToken` | backend/src/utils/jwtUtils.js:13-22 | the token carries the given user id and role |
| `AdminRoutes.AdminGate` | backend/src/routes/adminRoutes.js:7-27 | the guards of all three routes let a request through exactly when its token authenticates with the role `admin`; every refusal is 401 or 403 |
| `AdminRoutes.UserListing` | backend/src/routes/adminRoutes.js:9 | every user once, newest first |
| `AdminRoutes.ListUsers` | backend/src/routes/adminRoutes.js:7-14 | succeeds exactly when the admin guards pass, answering the user listing |
| `AdminRoutes.PromoteOnlyThatUser` | backend/src/routes/adminRoutes.js:19 | `Promote`, the UPDATE: the table keeps its length, the user with that id gets role `admin` and no other field changes, and every other user is unchanged |
| `AdminRoutes.PromoteIdempotent` | backend/src/routes/adminRoutes.js:19 | promoting twice equals promoting once |
| `AdminRoutes.PromoteMissingId` | backend/src/routes/adminRoutes.js:19 | promoting an id no user has changes nothing |
| `AdminRoutes.PromoteKeepsUsersOk` | backend/src/routes/adminRoutes.js:19 | promotion keeps the users invariant |
| `AdminRoutes.MakeAdmin` | backend/src/routes/adminRoutes.js:17-24 | a refused request gets the guard's answer and changes nothing. Otherwise it answers 200 even when no user has that id, and the users table becomes the promoted one with every other table unchanged |
| `AdminRoutes.Revenue` | backend/src/routes/adminRoutes.js:34-48 | Σ total_amount, with `|| 0` making it 0 when there are no orders |
| `AdminRoutes.RevenueAppend` | backend/src/routes/adminRoutes.js:34 | `SUM(total_amount)` counts each order once: one more order adds exactly its total |
| `AdminRoutes.RevenueAfterCheckout` | backend/src/routes/adminRoutes.js:34 | checkout grows the revenue by exactly the total of the caller's cart |
| `AdminRoutes.Distinct` | backend/src/routes/adminRoutes.js:40 | the distinct values of a list, each once |
| `AdminRoutes.QtySoldAppend` | backend/src/routes/adminRoutes.js:37-40 | `SUM(oi.quantity)` for one product (`QtySold`) splits over the rows: more order items add their quantities |
| `AdminRoutes.QtySoldUnsold` | backend/src/routes/adminRoutes.js:37-40 | a product with no order items has sold nothing |
| `AdminRoutes.ProductIds` | backend/src/routes/adminRoutes.js:38-40 | exactly the product ids that occur in order items |
| `AdminRoutes.Groups` | backend/src/routes/adminRoutes.js:36-40 | one row per sold product that still exists in the catalogue, exactly the listed ids whose product exists, in their order, each carrying its name and Σ quantity over its order items |
| `AdminRoutes.GroupsCover` | backend/src/routes/adminRoutes.js:36-40 | the inner join drops no group: every sold id whose product exists has a row |
| `AdminRoutes.BestSellers` | backend/src/routes/adminRoutes.js:36-43 | at most 5 rows, one per product, sorted by total sold in non-increasing order; every listed product occurs in some order item and still exists, under its name, with its total being Σ quantity over its order items |
| `AdminRoutes.SortedGroupsSold` | backend/src/routes/adminRoutes.js:37-41 | sorting the groups of `GROUP BY oi.product_id` keeps only products that occur in an order item |
| `AdminRoutes.SoldProductHasGroup` | backend/src/routes/adminRoutes.js:37-40 | every sold product still in the catalogue has its group |
| `AdminRoutes.BestSellersAreTop` | backend/src/routes/adminRoutes.js:41-42 | they are the top five: a sold product missing from the list has sold no more than any product in it, and is missing only when the list is full |
| `AdminRoutes.Reports` | backend/src/routes/adminRoutes.js:30-50 | userCount and orderCount are the table sizes; totalRevenue is the revenue; the best sellers are exactly `BestSellers` of the order items and products, so at most 5 of them and the top five |
| `AdminRoutes.GetReports` | backend/src/routes/adminRoutes.js:27-54 | succeeds exactly when the admin guards pass, answering the report |

## Left out

- I/O, the SQLite driver and every 500 path. Each handler runs as one step over in-memory
  tables, and a database error cannot happen. The autoincrement id and the affected-row count
  that `run` reports (`backend/src/config/db.js:75`) are computed from the tables.
- The non-atomic checkout and concurrent requests. The order insert, the item inserts, the
  stock updates and the cart delete form one sequential step. A failure half-way through is
  not modelled.
- Floating point. Prices and totals are integers in minor units, and JavaScript float sums
  are exact sums here.
- Timestamps. `datetime("now")` and `created_at` are an integer supplied by the caller.
- `Crypto.HashThenCompare`, `AuthController.RegisterThenLogin`: bcrypt compares only the first
  72 bytes of a password, so in the source a longer password also logs in with any attempt that
  shares those 72 bytes. The model compares whole passwords, so these lemmas state the exact
  match and not this truncation.
- bcrypt. `Crypto.Hash` is a stand-in that keeps the salt and a digest which compares equal
  only to the password it was made from. Salt rounds, the cost of hashing and irreversibility are not modelled. bcrypt throwing on a
  non-string password, which is the 500 path, is not modelled, because the fields are text here.
- JWT. Signatures, the secret and the one-hour expiry are not modelled. `verifyToken` is a
  parameter that answers a payload or nothing, and `generateToken` records the id and role it signs.
- Input coercion:
  - Cart ids, the product id of `GET /api/products/:id` and the make-admin id in the URL
    are integers, whereas the source passes strings that SQLite converts.
  - A productId in a cart body matches only when it is a number. A string such as "5",
    which SQLite's type affinity would also match, finds no product here.
  - Category, page and limit query parameters are integers, or absent. `parseInt` of
    non-numeric text (NaN) is not modelled, and neither is `if (categoryId)` on an
    empty-string parameter.
  - Fractional quantities pass `typeof quantity === 'number'` in the source. Here numbers
    are integers.
- String lengths count characters. JavaScript counts UTF-16 code units, so a password
  with characters outside the Basic Multilingual Plane has a different length in the source.
- Row order in SQL. `ORDER BY ... DESC` leaves equal keys in an unspecified order, and a
  join or `GROUP BY` without `ORDER BY` leaves its rows in an unspecified order. The model
  fixes one order: the order of the table's rows. The contracts of `ORDER BY` results
  (`UserListing`, `OrdersOf`, `AllOrders`, `PageRows`, `BestSellers`) state them only up
  to ties, by sortedness, multiset or membership, and at most five rows. The exception is
  `PageRowsAt`, which places the page inside the model's newest-first order.
- `CartController.GetCartItems`, `OrderController.ItemLinesOf`, `OrderController.JoinUsers`:
  their queries (`backend/src/controllers/cartController.js:7-12`,
  `backend/src/controllers/orderController.js:57-63` and `:76-78`) have no `ORDER BY`.
  Their contracts promise the rows in table order. That is the model's choice, and SQLite
  does not guarantee it.
- `ProductController.GetAllProducts`: the `!products` 404 branch is not modelled, because the
  query always answers a list and the branch cannot be taken.
- `CartController.UpdateCartItemQuantity`: the "related product not found" 404 branch is kept,
  but it cannot be taken in a valid store. The cart invariant makes every cart row point at a product.
- `DELETE /api/cart/clear` is registered after `DELETE /api/cart/:cartItemId`
  (`backend/src/routes/cartRoutes.js:25-28`), so Express routes it to `removeCartItem`.
  `ClearCart` models the `clearCart` handler itself.
- Route wiring, logging, the server start-up, the category controller and the React frontend
  are not part of this model. This includes the frontend rule that a quantity of 0 or less
  removes the row.
- The column names that `backend/src/config/db.js:43-63` creates (`address`, `price`)
  differ from the ones the order controller writes (`shipping_address`,
  `price_at_purchase`). The model follows the controllers.
- Checkout does not re-check stock before the decrements
  (`backend/src/controllers/orderController.js:33-36`), and neither does the model.
  `OrderController.StockCanGoNegative` shows that stock can go negative.
- An empty Authorization header is modelled as written. `"" && …` is `""`, which is not
  `null`, so the empty string is sent to verification and the answer is 403 unless the
  verifier accepts the empty token; it is never 401.
- A role of `""` is falsy and gives 403 "role missing" even when `""` is in the allowed list.
