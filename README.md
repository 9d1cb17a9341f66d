# Verified model of the node_api shop backend: carts, checkout, orders, guards and dashboard

This project is a Dafny model of the core of an Express/Mongoose e-commerce backend. It covers:

- **The cart store.** Each user has at most one cart, and a cart is an ordered list of
  `(product, quantity)` lines. There are two sets of handlers: the user path
  (`cartControllers.ts`) and the administrator path (`adminCartController.ts`). The
  administrator path has stricter not-found rules.
- **Checkout** (`createOrder`). It snapshots the cart lines against the current catalog
  and prices them: subtotal, shipping 5, tax 0, total. It then appends a pending order and
  deletes the cart.
- **The order status machine.**
  - An owner may cancel a pending order.
  - An administrator may set `confirmed`, `shipped`, `delivered` or `cancelled`, unless
    the order is already `delivered`.
- **The request guards.**
  - Cart-item body, product body and category body validators.
  - The cart owner-or-admin guard and the product owner-or-admin guard.
- **The administrator dashboard.** Revenue, customer count, revenue per month, top
  products, recent orders and the status breakdown, all as folds over the order sequence.

Module layout, one file each:

| module | what it holds |
|---|---|
| `Common` | Identifiers, `Option`, `Result` (a value or an HTTP status and message), `Verdict` (a middleware's next-or-reject) and the caller `Principal`. |
| `Js` | Request-body values, JavaScript truthiness and `String.prototype.trim`. |
| `Sorting`, `Grouping` | The query stages `$sort`, `$limit` and `$group`, written once for any element type. |
| `ProductModel`, `CartModel`, `OrderModel` | The three documents, their schema constraints, and the value-level edits and transitions. |
| `Carts` | `class CartStore`: the cart collection and every cart handler. |
| `Orders` | `class OrderStore`: the order collection and every order handler. |
| `Checkout` | `createOrder`, over both stores. |
| `Validators`, `Access` | The middlewares. |
| `Dashboard` | The aggregations. |

The handlers change stored documents in place, so the two stores are classes. Each handler
method's `ensures` ties the new collection to value-level functions of the old one. For cart
lines these are `Merge`, `Upsert` and `Remove`; the cart handlers apply them to the
document's items and then save. For orders it is a status update. The
properties the source promises are proved about those functions, and about the invariant
`Valid()` that every method preserves:

- quantities are at least 1;
- a cart has one line per product;
- cart and order ids are unique;
- every stored order carries the amounts checkout computed.

A few facts about how the code behaves, which the model follows:

- **Cancelled is not final.** `updateOrderStatus` refuses only delivered orders, so an
  administrator can move a cancelled order to any allowed status
  (`OrderModel.CancelledIsReopenable`).
- **A cart line is never removed for a low quantity.** The quantity edits always keep the
  line. A result below 1 is refused by the schema (`min: 1`) when `save()` runs, and then
  nothing is stored.
- **The administrator add path can leave an empty cart behind.** It has no body validator.
  It stores the empty cart with `Cart.create` before editing it, so a merged quantity
  below 1 makes `save()` fail with 500 after the empty cart was stored
  (`Carts.CartStore.AdminAddItem`).
- **The product guard and the product schema disagree on blank names.** The body guard
  accepts a name that is all white space. On creation the schema trims names before its
  `required` check, so such a product cannot be created
  (`Validators.AdmittedProductStoredIffNameNotBlank`). The update path runs no schema
  validator, so there the trimmed, empty name is stored; the catalog invariant
  `ProductModel.ValidProduct` therefore demands a trimmed name but not a non-empty one.
- **The user-path guard runs first.** On the user path, `validateCartItemBody` runs before
  the add and update handlers (src/routes/cartRoutes.ts:64, 98). The model therefore states
  their quantity as a precondition `q >= 1`.

## Model

| member | source | states |
|---|---|---|
| `Js.Truthy` | src/middlewares/cartMiddleware.ts:11 | `!!v`: false exactly for the five falsy values a request body can hold (undefined, null, false, 0 and ""). |
| `Js.Trim` | src/models/Product.ts:19 | `trim`: the result is no longer than the input and neither starts nor ends with white space. |
| `Js.TrimIsSlice` | src/models/Product.ts:19 | What `trim` keeps is one contiguous piece of the input, with only white space before and after it. |
| `Js.TrimEmptyIffBlank` | src/middlewares/validateCategory.ts:12 | `s.trim() === ""` holds exactly when every character of `s` is JavaScript white space, in both directions. |
| `ProductModel.Validate` | src/models/Product.ts:14-58 | A draft is stored exactly when name, price, category, inStock, quantity and createdBy are present, the trimmed name is non-empty, and price and quantity are at least 0. A stored product has the trimmed name and satisfies every schema bound. |
| `ProductModel.TrimIdempotent` | src/models/Product.ts:16-21 | Trimming a trimmed name changes nothing, so a stored name stays trimmed. |
| `CartModel.Find` | src/controllers/cartControllers.ts:109 | `findIndex`: the first line holding the product, or -1 exactly when no line holds it. |
| `CartModel.Merge` | src/controllers/cartControllers.ts:40-48 | Add `q`. The product's total quantity grows by `q` and every other product's quantity and lines are unchanged. An existing line keeps its place; a new product gets one line appended at the end. One line per product is preserved, and the result passes `min: 1` exactly when the product's new quantity is at least 1. |
| `CartModel.Upsert` | src/controllers/cartControllers.ts:74-82 | Set to `q`. The product's quantity becomes `q` (not `+ q`) and other products are unchanged. It updates in place or appends, and preserves one line per product and positivity. |
| `CartModel.Remove` | src/controllers/cartControllers.ts:109-112 | Splice. Without a line for the product the items are unchanged. Otherwise there is one line fewer and every other product's quantity is unchanged. With one line per product, the result is exactly the other products' lines in order, the product is absent, and positivity is kept. |
| `CartModel.RemoveTakesOneLine` | src/controllers/cartControllers.ts:109-112 | The splice takes out exactly the product's line: the remaining multiset plus that line is the original. |
| `Carts.CartStore.Get` | src/controllers/cartControllers.ts:13-18 | The user's cart, or 404 "Cart not found" exactly when the user has none. The administrator `getUserCart` is the same lookup. |
| `Carts.CartStore.Create` | src/controllers/cartControllers.ts:36-38 | `Cart.create`: stores an empty cart with a fresh id for a user who had none. |
| `Carts.CartStore.Allocate` | src/controllers/cartControllers.ts:69-72 | `new Cart`: a fresh empty cart that is not stored yet. |
| `Carts.CartStore.Save` | src/models/Cart.ts:22-26 | `save()`: stores the cart exactly when every line has quantity at least 1; otherwise 500 and the store is unchanged. |
| `Carts.CartStore.AddItem` | src/controllers/cartControllers.ts:30-52 | Creates the cart when missing, then stores `Merge` of the old items. No other user's cart changes, and `Valid()` is kept. |
| `Carts.CartStore.UpdateItem` | src/controllers/cartControllers.ts:58-89 | Creates the cart when missing, then stores `Upsert`. No other cart changes. |
| `Carts.CartStore.RemoveItem` | src/controllers/cartControllers.ts:94-119 | 404 without a cart. Otherwise stores `Remove`, and succeeds unchanged when the product is absent. |
| `Carts.CartStore.Clear` | src/controllers/cartControllers.ts:177-195 | 404 without a cart. Otherwise removes exactly the user's cart, so a later `Get` is 404. The administrator `clearUserCart` is the same operation. |
| `Carts.CartStore.DeleteById` | src/controllers/cartControllers.ts:155-172 | 404 exactly when no cart has the id. Otherwise removes exactly that cart, and afterwards no cart has the id. The administrator `deleteCart` is the same operation. |
| `Carts.CartStore.AdminAddItem` | src/controllers/adminCartController.ts:33-56 | Same create-then-merge as the user path, with an unchecked quantity. If the product's merged quantity is at least 1 the merged cart is stored. Otherwise the result is 500 and only the created empty cart remains. |
| `Carts.CartStore.AdminUpdateItem` | src/controllers/adminCartController.ts:58-85 | 400 for a quantity below 1, before any lookup. Then 404 without a cart and 404 without a line for the product. Otherwise the line's quantity becomes exactly `q`. It never inserts a line and never changes another cart. |
| `Carts.CartStore.AdminRemoveItem` | src/controllers/adminCartController.ts:87-109 | 404 without a cart. 404 without a line for the product, unlike the user path. Otherwise exactly one line is removed. |
| `OrderModel.AllowedTarget` | src/controllers/adminOrderController.ts:28-31 | A requested status is accepted exactly when it is one of confirmed, shipped, delivered or cancelled, never pending. It is read back as the status of that name. |
| `OrderModel.AllowedTargetOfName` | src/models/Order.ts:3-8 | Naming a status and reading it back gives the same status, for every status except pending. |
| `OrderModel.Subtotal` | src/controllers/orderController.ts:25-28 | The `reduce`: 0 for no items, and price × quantity for a single item. With `SubtotalAppend` this fixes the value of every list. |
| `OrderModel.SubtotalAppend` | src/controllers/orderController.ts:25-28 | The subtotal of a concatenation is the sum of the two subtotals. |
| `OrderModel.SubtotalNonNegative` | src/controllers/orderController.ts:25-28 | With non-negative prices and quantities, the subtotal is non-negative. |
| `OrderModel.CancelTransition` | src/controllers/orderController.ts:87-93 | Cancellation succeeds exactly from pending, gives cancelled, and otherwise answers 400. |
| `OrderModel.AdminTransition` | src/controllers/adminOrderController.ts:38-45 | An administrator update succeeds exactly when the order is not delivered, and gives the requested status. |
| `OrderModel.StepCases` | src/controllers/adminOrderController.ts:27-45 | One handler step leaves a status unchanged or moves an undelivered order to a non-pending status, and every such move is possible. |
| `OrderModel.DeliveredIsFinal` | src/controllers/adminOrderController.ts:38-42 | In any history of handler steps, once an order is delivered it stays delivered. |
| `OrderModel.PendingNotReentered` | src/models/Order.ts:49-50 | Pending is only the initial status: once an order leaves pending, no handler step returns it there. |
| `OrderModel.CancelledIsReopenable` | src/controllers/adminOrderController.ts:38-45 | A cancelled order can be moved by an administrator to every allowed status. |
| `Orders.IndexOf` | src/controllers/orderController.ts:62 | `findById`: the position of the order with that id, or -1 exactly when there is none. |
| `Orders.OwnedBy` | src/controllers/orderController.ts:54 | `find({ userId })`: each of the user's orders as often as it is stored, and no other order. |
| `Orders.MyOrders` | src/controllers/orderController.ts:53-58 | Exactly the requester's orders, newest first. |
| `Orders.OrderStore.Get` | src/controllers/adminOrderController.ts:13-23 | The stored order with that id, or 404 exactly when there is none. |
| `Orders.OrderStore.GetForOwner` | src/controllers/orderController.ts:61-73 | 404 exactly when no order has the id. 403 exactly when the order belongs to someone else. Otherwise the requester's own order. |
| `Orders.OrderStore.Place` | src/controllers/orderController.ts:30-42 | `Order.create`: appends a pending order with subtotal, shipping 5, tax 0 and total = totalAmount = subtotal + 5, under a fresh id. |
| `Orders.OrderStore.Cancel` | src/controllers/orderController.ts:76-97 | 404, then 403, then 400 unless pending, otherwise the status becomes cancelled. Every order changes at most by one status step and nothing else. |
| `Orders.OrderStore.UpdateStatus` | src/controllers/adminOrderController.ts:25-48 | 400 "Invalid status" before the lookup, then 404, then 400 for a delivered order. Otherwise only the status changes, to the requested one. Every change is one status step. |
| `Orders.OrderStore.Delete` | src/controllers/adminOrderController.ts:50-58 | 404 for an unknown id. Otherwise exactly that order is removed and the others keep their order. |
| `Checkout.Snapshot` | src/controllers/orderController.ts:15-23 | One order item per cart line, in cart order, with the line's product and quantity and the product's current name and price. It fails exactly when a line's product has left the catalog. |
| `Checkout.SnapshotSubtotal` | src/controllers/orderController.ts:25-28 | The subtotal of a snapshot of stored products and valid cart lines is never negative. |
| `Checkout.PlaceOrder` | src/controllers/orderController.ts:6-50 | A missing or empty cart gives 400 "Cart is empty" with both stores unchanged. A vanished product gives a 500 failure before any write. Otherwise the snapshot becomes a new priced pending order appended to the orders, and the user's cart is deleted. The new order takes the next order id. The order counter advances only on success, and the cart counter never moves. |
| `Checkout.CheckoutTotalAtLeastShipping` | src/controllers/orderController.ts:30-41 | A checked-out order over a valid catalog costs at least the shipping fee, and its totalAmount equals its total. |
| `Validators.ValidateCartItemBody` | src/middlewares/cartMiddleware.ts:4-27 | It passes exactly for a non-empty string productId and a positive numeric quantity. Each of the three 400 messages fires exactly when its check is the first to fail. |
| `Validators.AdmittedCartQuantityIsStorable` | src/middlewares/cartMiddleware.ts:21-24 | An admitted quantity is at least 1, as the cart schema requires. |
| `Validators.ValidateProductBody` | src/middlewares/productMiddleware.ts:4-48 | Six checks in a fixed order. The first failing check picks the 400 message. A price, quantity or inStock of 0 or false counts as present. It passes exactly when every check passes. |
| `Validators.AdmittedProductStoredIffNameNotBlank` | src/middlewares/productMiddleware.ts:11-25 | On creation, an admitted body is accepted by the product schema exactly when its name is not all white space. |
| `Validators.ValidateCategory` | src/middlewares/validateCategory.ts:3-37 | On POST the name must be a string that is not blank after trim. On any method, a name or description that is present must be a string. The first failing rule picks the 400 message. |
| `Access.CartOwnerOrAdmin` | src/middlewares/cartOwnerMiddle.ts:5-28 | 401 exactly without a user. It passes exactly for an admin or for the target user. Otherwise 403. |
| `Access.ProductOwnerOrAdmin` | src/middlewares/productOwnership.ts:5-35 | 404 exactly for an unknown product, before authentication. Then 401 without a user. It passes exactly for an admin or for a vendor who created the product. Otherwise 403. |
| `Access.ProductGuardAdmitsOnlyAdminOrOwner` | src/middlewares/productOwnership.ts:22-34 | Whoever passes is an admin or the owning vendor. A client or a role-less user never passes. |
| `Sorting.Sort` | src/controllers/orderController.ts:55 | `sort`: a permutation of its input, ordered by the given total preorder. |
| `Sorting.Top` | src/controllers/adminDashboardController.ts:127-128 | `sort` then `limit(n)`: `min(n, size)` elements, sorted, drawn from the input, and each one ordered before everything left out. |
| `Sorting.TopExcluded` | src/controllers/adminDashboardController.ts:112-113 | An element that `sort` then `limit(n)` leaves out means the result holds exactly `n` elements, each ordered before it. |
| `Grouping.GroupBySize` | src/controllers/adminDashboardController.ts:40-50 | `$group` yields at most one bucket per element, and no buckets exactly when there are no elements. |
| `Grouping.GroupByCorrect` | src/controllers/adminDashboardController.ts:40-50 | `$group`: one bucket per key that occurs, no key twice, and each bucket holds the two sums over its members. |
| `Grouping.GroupByTotal` | src/controllers/adminDashboardController.ts:40-50 | The bucket sums add up to the sum over all elements. |
| `Grouping.BucketsPermuted` | src/controllers/adminDashboardController.ts:40-51 | `$sort` after `$group`: any rearrangement of a correct bucketing is still one bucket per key with its members' sums. |
| `Dashboard.TotalRevenue` | src/controllers/adminDashboardController.ts:9-12 | 0 when there are no orders, as the `|| 0` fallback gives; a single order's total for one order. |
| `Dashboard.TotalRevenueAppend` | src/controllers/adminDashboardController.ts:9-12 | The `$sum` is additive: the revenue of two lists of orders is the sum of their revenues. |
| `Dashboard.RevenueOfPricedOrders` | src/controllers/adminDashboardController.ts:9-12 | Over checked-out orders, total revenue is the sum of the subtotals plus one shipping fee per order. It is 0 for no orders. |
| `Dashboard.CountCustomers` | src/controllers/adminDashboardController.ts:18 | Counts users whose role is not admin: a single user counts 1 exactly when not an admin. The count equals the number of users exactly when there is no admin, and is 0 exactly when all users are admins. |
| `Dashboard.CountCustomersAppend` | src/controllers/adminDashboardController.ts:18 | The count is additive over lists of users; with the single-user case this fixes the count of every list. |
| `Dashboard.DashboardStats` | src/controllers/adminDashboardController.ts:6-36 | The order count, `TotalRevenue` and `CountCustomers` of the inputs; for checked-out orders, revenue = subtotals + shipping. |
| `Dashboard.MonthName` | src/controllers/adminDashboardController.ts:53-71 | Month m in 1..12 gets the m-th of Jan … Dec, and "Unknown" is returned exactly outside 1..12. |
| `Dashboard.MonthNamesDistinct` | src/controllers/adminDashboardController.ts:57-68 | Different months get different names. |
| `Dashboard.RevenueByMonth` | src/controllers/adminDashboardController.ts:38-77 | At most one row per order, no rows exactly when there are no orders, and each row's month name is that of its period. |
| `Dashboard.PeriodBucketsCorrect` | src/controllers/adminDashboardController.ts:40-51 | The grouped and sorted buckets are strictly increasing by (year, month). Every order's period has a bucket, and each bucket carries the sums of its orders. |
| `Dashboard.RevenueByMonthChronological` | src/controllers/adminDashboardController.ts:51 | The revenue chart is strictly chronological, so no period has two rows. |
| `Dashboard.RevenueByMonthCovers` | src/controllers/adminDashboardController.ts:43-46 | Every period in which an order was created has a row. |
| `Dashboard.RevenueByMonthRows` | src/controllers/adminDashboardController.ts:40-76 | Each row is a period of some order, with that period's revenue, its order count and its month name. |
| `Dashboard.RevenueByMonthTotal` | src/controllers/adminDashboardController.ts:47 | The rows' revenues add up to the total revenue. |
| `Dashboard.Flatten` | src/controllers/adminDashboardController.ts:88 | `$unwind`: an item is in the result exactly when it belongs to some order, and the result is the items of all orders but the last, followed by the last order's items. |
| `Dashboard.FlattenAppend` | src/controllers/adminDashboardController.ts:88 | Unwinding keeps repeated lines: the items of two lists of orders are those of the first followed by those of the second. |
| `Dashboard.Known` | src/controllers/adminDashboardController.ts:96-104 | `$lookup` then `$unwind`: exactly the buckets whose product is in the catalog, with their multiplicities. |
| `Dashboard.TopBucketsRanked` | src/controllers/adminDashboardController.ts:87-113 | At most ten buckets, distinct catalog products, by revenue descending, each with its units sold and revenue. |
| `Dashboard.TopBucketsComplete` | src/controllers/adminDashboardController.ts:112-113 | A sold catalog product is missing only when ten buckets, each with at least its revenue, fill the list. |
| `Dashboard.TopProducts` | src/controllers/adminDashboardController.ts:85-113 | At most ten rows, each a catalog product carrying that product's name. |
| `Dashboard.TopProductsRanked` | src/controllers/adminDashboardController.ts:87-113 | The best-seller list: at most ten distinct catalog products with their names, units sold and revenue, by revenue descending. |
| `Dashboard.TopProductsComplete` | src/controllers/adminDashboardController.ts:112-113 | A sold catalog product is left off only when the list is full and every listed product earned at least as much. |
| `Dashboard.DisplayTotal` | src/controllers/adminDashboardController.ts:138 | The `||` fallback: a non-zero stored total is shown as is, and a zero total is replaced by the subtotal recomputed from the items. The shown total is 0 exactly when both are 0. |
| `Dashboard.DisplayTotalOfPricedOrder` | src/controllers/adminDashboardController.ts:138 | For a checked-out order, the displayed total is the stored total (subtotal + 5), never the recomputed fallback. |
| `Dashboard.RecentOrders` | src/controllers/adminDashboardController.ts:122-147 | `min(10, n)` rows, newest first, each the view of a stored order, and no order shown more often than it is stored. Any order not shown is no newer than every order shown. |
| `Dashboard.OrdersByStatus` | src/controllers/adminDashboardController.ts:158-165 | At most one row per order, and no rows exactly when there are no orders. |
| `Dashboard.OrdersByStatusCorrect` | src/controllers/adminDashboardController.ts:159-166 | One bucket per status that occurs, each counting its orders. The counts add up to the number of orders. |
| `Dashboard.AnalyticsOf` | src/controllers/adminDashboardController.ts:149-178 | The order count equals the sum of the status-bucket counts. Revenue is `TotalRevenue`, the customer count is `CountCustomers` and the breakdown is `OrdersByStatus`, so the facts proved of each carry over to the handler's result. |

## Left out

- Routing and HTTP plumbing are not modelled: Express wiring, Swagger comments and success status codes.
  - Handlers take the acting user and the ids as explicit arguments, not route parameters.
  - This sidesteps the `:id` versus `productId` parameter mismatch and the guard that reads `params.userId`.
- The auth payload shape is not modelled. `protect` sets only `{ id }`, while handlers read `_id` and `role`. The caller is passed as a `Principal`.
- Foreign code is left out: JWT, bcrypt, randomness and clock reads in `authController.ts` and `authMiddleware.ts`, e-mail sending, file uploads, database bootstrapping and type declarations.
- Single-call controllers and models are not part of this model: `productController.ts`, `categoryController.ts`, `validateCategoryExists.ts`, `validateProductExists.ts`, `Category.ts` and `User.ts`. Each is one ODM call and a 404. The dashboard reads users as a sequence of `(id, role)` records. The `User` schema (src/models/User.ts:11-23) declares no `role` field, and `register` (src/controllers/authController.ts:36-40) stores none. So in the source every user is the `role: None` case, and `User.countDocuments({ role: { $ne: "admin" } })` counts every user; `Dashboard.CountCustomers` gives exactly that on such a list.
- Concurrency is not modelled: two requests racing on the same cart, and the gap between `Order.create` and the cart deletion in checkout. Checkout runs as sequential steps.
- Numbers are integers. Prices and quantities are JavaScript numbers in the source, so fractions, `NaN` and non-numeric values are outside the model. This covers a non-numeric administrator quantity, and the administrator quantity check `!quantity`, which only differs from `< 1` for such values.
- `Validators.AdmittedCartQuantityIsStorable`, `Carts.CartStore.AddItem` and `Carts.CartStore.UpdateItem` hold over integer quantities only. The cart guard refuses only quantities `<= 0`, so a fraction such as 0.5 passes it and is then refused with 500 by the cart schema's `min: 1` when the cart is saved.
- `updateProduct` (src/controllers/productController.ts:49-60) is not modelled. It runs after the same body guard but uses `findByIdAndUpdate` without `runValidators`, so the name setter still trims but `required` is not checked, and an all-white-space name is stored as "". `ProductModel.ValidProduct` accounts for this by not requiring a non-empty name.
- The dashboard's floating-point `averageOrderValue` and its hard-coded growth, percentage and conversion figures are left out.
- Mongoose internals are left out: `populate`, ObjectId generation, casting and its errors, and timestamps.
  - Fresh ids come from counters, and `createdAt` is a clock reading passed in.
  - `$year` and `$month` come from a calendar function passed in.
  - `ObjectId.isValid` is an uninterpreted predicate.
- Strict-mode dropping is left out. The order schema declares only `totalAmount`, so Mongoose drops the `subtotal`, `shipping`, `tax` and `total` that checkout passes, and the dashboard sums a `total` field. The model keeps the values the handler computes.
- The `getAllCarts` listings in both cart controllers and `getAllOrders` are not modelled: they are unfiltered reads with population and sorting, and no decision.
- `Checkout.PlaceOrder`: a product deleted after it was put in a cart makes the handler throw, and the model reports this only as a status-500 failure with no message. The source has no `catch`, so what the client sees depends on the framework's default error handling.
- Ties in `sort` are broken by the model's insertion sort. The database leaves their order unspecified, and the contracts do not depend on it.
