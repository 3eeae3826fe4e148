# Quick-commerce order lifecycle, in Dafny

This project models the order flow of a small quick-commerce app. Customers fill a cart and place orders. Delivery agents claim pending orders and advance them through the delivery statuses. An admin watches every order. The server's handlers are written to emit socket events that keep each dashboard's lists current; as the server is wired, those events are never sent (see Findings).

**The server side** has three parts:

- `Lifecycle` (lifecycle.dfy) gives the three mutating request handlers as pure steps on a store, a map from order id to order. Each step returns the new store, the events emitted and the HTTP reply:
  - `createOrder`
  - `acceptOrder`, which claims an order
  - `updateOrderStatus`
- `Server.OrderStore` (order_store.dfy) is a class holding the collection, its natural order and the event log. Its methods perform those steps in place and are proved equal to them.
- `Queries` (queries.dfy) models the three list queries: a filter, then a stable sort on creation time, newest first.

Properties proved about the server:

- A successful claim locks the order. Any later claim by anyone is refused with 400, whatever requests happen in between (`SingleWinner`).
- No request ever changes an order's customer, items, total or creation time, or clears an assignee.
- A claimed order leaves the unassigned pool.

**The client side:**

- The cart transforms and the order request built from the cart (`Cart`).
- The list updates applied on socket events (`OrderLists`).
- The three dashboards, as classes whose fields are the component state and whose methods are the handlers:
  - `CustomerPage.CustomerDashboard`
  - `DeliveryPage.DeliveryDashboard`
  - `AdminPage.AdminDashboard`
- The order card's action buttons (`OrderCard`). They are the only place where the forward-only sequence accepted → picked_up → on_the_way → delivered exists.
- The status badge (`StatusBadge`).
- The route guard (`ProtectedRoute`).

Four behaviours of the code worth knowing:

- The controller writes whatever status the assignee sends. It does not check that the status is the next one in the lifecycle, so the owner can even set an order back to pending (`OwnerCanRewindStatus`).
- `createOrder` stores items and total exactly as sent, without validating or recomputing them.
- `updateOrderStatus` on an order with no assignee fails with 500. The ownership test dereferences the missing assignee, and the handler's catch turns that into "Server error".
- The handlers emit only when the app holds a socket server under the setting they read (`req.app.get('io')`). backend/server.js creates the socket server but never stores it there, so no event is ever sent. `Lifecycle` states the events each handler would emit. `Lifecycle.Broadcast` applies the guard, and `Server.OrderStore` takes whether the server is registered as a constant.

The admin page shows five cards. Total Orders, Pending and Delivered read the `stats` state. The page's socket handlers were created when the page mounted, and they recompute `stats` from the order list of that moment, which was empty. So after an `order_created` event those three cards count only the new order, and after an `order_status_updated` event all three read zero. The class models this with the constant snapshot fields `mountOrders`, `mountCustomers` and `mountPartners`. The Customers and Delivery Partners cards read the current customer and partner lists directly. So the two head counts stored in `stats` are never displayed.

Money is modelled as integer cents. Status is a string, because the controller writes any string it receives; `Orders` names the five lifecycle values.

## Model

| member | source | states |
|---|---|---|
| Queries.Select | backend/controllers/deliveryController.js:5-8 | keeps exactly the documents that pass the filter, each as often as it occurs, and never yields more than it scans |
| Queries.SortNewestFirst | backend/controllers/deliveryController.js:11 | the result is sorted by creation time, newest first, and is a permutation of its input |
| Queries.InsertNewest | backend/controllers/deliveryController.js:11 | inserting into a newest-first list keeps it newest first and adds exactly the one order |
| Queries.UnassignedOrders | backend/controllers/deliveryController.js:3-17 | newest first; holds exactly the pending orders without assignee, with their multiplicities |
| Queries.MyDeliveries | backend/controllers/deliveryController.js:54-66 | newest first; holds exactly the orders assigned to the agent |
| Queries.MyOrders | backend/controllers/customerController.js:40-51 | newest first; holds exactly the orders placed by the customer |
| Lifecycle.Create | backend/controllers/customerController.js:13-38 | adds one pending, unassigned order with the caller as customer and the items and total as supplied; other orders unchanged; emits order_created then new_order; replies 201 |
| Lifecycle.Accept | backend/controllers/deliveryController.js:19-52 | succeeds iff the order exists, is pending and has no assignee; 404 for a missing order, 400 "Order already assigned" otherwise, with store and events untouched; on success only status (accepted) and assignee (the caller) change, order_accepted then order_locked are emitted, reply 200 |
| Lifecycle.Update | backend/controllers/deliveryController.js:69-101 | succeeds iff the order exists and the caller is its assignee; 404, 500 (no assignee) and 403 (another assignee) leave everything untouched; on success the requested status is written unchecked, the assignee and record are kept, one order_status_updated is emitted, reply 200 |
| Lifecycle.ApplyKeepsRecord | backend/controllers/deliveryController.js:33-35 | one request keeps every existing order, its customer, items, total and creation time, and any assignee it has |
| Lifecycle.RunKeepsRecord | backend/controllers/deliveryController.js:29-35 | the same along any sequence of requests |
| Lifecycle.SingleWinner | backend/controllers/deliveryController.js:29-31 | after one successful claim, any later claim on that order by any agent, after any requests, fails with 400 "Order already assigned" |
| Lifecycle.CreateKeepsWellFormed | backend/controllers/customerController.js:17-22 | creating keeps the store consistent with its natural order (ids distinct, each order filed under its own id) |
| Lifecycle.AcceptKeepsWellFormed | backend/controllers/deliveryController.js:33-35 | a claim keeps the store consistent with its natural order |
| Lifecycle.UpdateKeepsWellFormed | backend/controllers/deliveryController.js:84-85 | a status write keeps the store consistent with its natural order |
| Lifecycle.CreatedOrderIsListed | backend/controllers/deliveryController.js:5-8 | a new order appears in the unassigned list and in its customer's own list |
| Lifecycle.StaysUnassigned | backend/controllers/deliveryController.js:69-90 | any request other than a claim on an unassigned order leaves that order exactly as it was: a status write on it fails for want of an assignee, a new order has another id |
| Lifecycle.StaysUnassignedRun | backend/controllers/customerController.js:17-22 | along any sequential history without a claim on it, a new (unassigned) order stays stored unchanged |
| Lifecycle.RunKeepsWellFormed | backend/controllers/customerController.js:17-22 | every history keeps the store consistent with its natural order grown by the ids of the orders it creates |
| Lifecycle.ListedUntilClaimed | backend/controllers/deliveryController.js:5-11 | an order the unassigned query returns is returned by it, unchanged, after any history without a claim on it |
| Lifecycle.ClaimedOrderLeavesPool | backend/controllers/deliveryController.js:29-35 | after a successful claim no entry with that id is in the unassigned list, and the order is among the agent's deliveries |
| Lifecycle.OwnerCanRewindStatus | backend/controllers/deliveryController.js:84 | the assignee can set a delivered order back to pending; it then is not offered to agents and a claim on it fails with 400 |
| Lifecycle.AsWiredNoClientIsNotified | backend/server.js:14-36 | as the server is wired, no sequence of requests sends any socket event to a client |
| Lifecycle.WiringDecidesNotification | backend/server.js:14-36 | for a history whose first request succeeds, registered clients hear that request's events first, while as wired they hear nothing |
| Lifecycle.WiredBroadcastMatchesReply | backend/controllers/deliveryController.js:42-46 | with the socket server registered, a request is broadcast iff it succeeds, and every event carries the order as stored under the request's id and as replied |
| Lifecycle.WiredNotificationsAppend | backend/controllers/customerController.js:28-32 | with the socket server registered, the notifications of two histories run one after the other are the concatenation of their notifications |
| Server.OrderStore.CreateOrder | backend/controllers/customerController.js:13-38 | for a customer caller: the new state and the reply are those of `Lifecycle.Create`, and the events appended are its events when the socket server is registered and none otherwise; the id is appended to the natural order; the store stays consistent; the new order is in the store's unassigned list and in the caller's own list |
| Server.OrderStore.AcceptOrder | backend/controllers/deliveryController.js:19-52 | for a delivery caller: state and reply are those of `Lifecycle.Accept`, and the events appended are its events when the socket server is registered and none otherwise; the store stays consistent; after a success no entry with the id is in the store's unassigned list, and the order is among the caller's deliveries |
| Server.OrderStore.UpdateOrderStatus | backend/controllers/deliveryController.js:69-101 | for a delivery caller: state and reply are those of `Lifecycle.Update`, and the events appended are its events when the socket server is registered and none otherwise; the store stays consistent |
| OrderLists.RemoveById | frontend/src/pages/delivery/DeliveryDashboard.jsx:24-26 | exactly the entries with another id survive, and the length drops by the number of entries with the id |
| OrderLists.ReplaceById | frontend/src/pages/customer/CustomerDashboard.jsx:22-32 | same length; every entry with the order's id becomes the order, every other entry is unchanged |
| OrderLists.RemoveByIdKeepsOrder | frontend/src/pages/delivery/DeliveryDashboard.jsx:24-26 | removal from a concatenation is the concatenation of the removals, so survivors keep their order |
| OrderLists.RemoveAbsentId | frontend/src/pages/delivery/DeliveryDashboard.jsx:24-26 | removing an id that is not present changes nothing |
| OrderLists.RemoveByIdIdempotent | frontend/src/pages/delivery/DeliveryDashboard.jsx:24-26 | removing twice is removing once |
| OrderLists.PrependThenRemove | frontend/src/pages/delivery/DeliveryDashboard.jsx:20-26 | a new_order followed by order_locked for the same order leaves no entry with its id and the rest as removal alone would |
| OrderLists.ReplaceAbsentId | frontend/src/pages/admin/AdminDashboard.jsx:33-35 | replacing by an unknown id changes nothing |
| OrderLists.ReplaceByIdKeepsIds | frontend/src/pages/admin/AdminDashboard.jsx:37-38 | replacement keeps every entry's id and is idempotent |
| Cart.AddToCart | frontend/src/pages/customer/CustomerDashboard.jsx:58-72 | the product is in the result; the length grows by one exactly when it was absent; unique product ids and positive quantities are preserved |
| Cart.AddNewProduct | frontend/src/pages/customer/CustomerDashboard.jsx:69-71 | an absent product is appended as one line with quantity 1, the existing lines in order |
| Cart.AddExistingProduct | frontend/src/pages/customer/CustomerDashboard.jsx:59-68 | with unique ids, a present product's line gains one and every other line and the length are unchanged |
| Cart.RemoveFromCart | frontend/src/pages/customer/CustomerDashboard.jsx:74-76 | the product is gone, exactly the other lines remain, uniqueness and positivity are preserved |
| Cart.RemoveAbsent | frontend/src/pages/customer/CustomerDashboard.jsx:74-76 | removing an absent product changes nothing |
| Cart.RemoveIdempotent | frontend/src/pages/customer/CustomerDashboard.jsx:74-76 | removing twice is removing once |
| Cart.RemoveKeepsOrder | frontend/src/pages/customer/CustomerDashboard.jsx:74-76 | removal distributes over concatenation, so the remaining lines keep their order |
| Cart.UpdateQuantity | frontend/src/pages/customer/CustomerDashboard.jsx:78-88 | preserves unique product ids |
| Cart.UpdateQuantityCases | frontend/src/pages/customer/CustomerDashboard.jsx:78-88 | quantity 0 is exactly removal; any other value sets only that product's quantity and keeps length and ids |
| Cart.ButtonsKeepQuantitiesPositive | frontend/src/pages/customer/CustomerDashboard.jsx:197-204 | the minus and plus buttons keep every quantity at least 1 (minus on a single item removes the line) |
| Cart.Total | frontend/src/pages/customer/CustomerDashboard.jsx:90-92 | the empty cart totals 0; with non-negative prices and quantities the total is non-negative |
| Cart.TotalAppend | frontend/src/pages/customer/CustomerDashboard.jsx:90-92 | the total of a concatenation is the sum of the totals |
| Cart.AddToCartTotal | frontend/src/pages/customer/CustomerDashboard.jsx:58-72 | adding raises the total by one unit price: the new product's for a new line, the stored product's for an existing line |
| Cart.Payload | frontend/src/pages/customer/CustomerDashboard.jsx:99-105 | one (productId, quantity) item per line in cart order, and the cart total |
| CustomerPage.CustomerDashboard.constructor | frontend/src/pages/customer/CustomerDashboard.jsx:10-13 | empty cart and orders, products tab, not loading |
| CustomerPage.CustomerDashboard.AddToCart | frontend/src/pages/customer/CustomerDashboard.jsx:58-72 | the cart becomes `Cart.AddToCart` of the old cart; the cart invariant holds; nothing else changes |
| CustomerPage.CustomerDashboard.RemoveFromCart | frontend/src/pages/customer/CustomerDashboard.jsx:74-76 | the cart becomes `Cart.RemoveFromCart` of the old cart; the invariant holds; nothing else changes |
| CustomerPage.CustomerDashboard.StepQuantity | frontend/src/pages/customer/CustomerDashboard.jsx:197-204 | a ±1 button updates the line's quantity through updateQuantity and keeps ids unique and quantities positive |
| CustomerPage.CustomerDashboard.UpdateQuantity | frontend/src/pages/customer/CustomerDashboard.jsx:78-88 | for the non-negative quantities the page sends, the cart becomes `Cart.UpdateQuantity` of the old cart and keeps unique ids and positive quantities; nothing else changes |
| CustomerPage.CustomerDashboard.PlaceOrder | frontend/src/pages/customer/CustomerDashboard.jsx:94-117 | an empty cart sends nothing and changes nothing; otherwise the cart's payload is sent, the cart is emptied and the orders tab selected only on success, and loading ends false |
| CustomerPage.CustomerDashboard.LoadOrders | frontend/src/pages/customer/CustomerDashboard.jsx:49-56 | the order list becomes the server's reply; nothing else changes |
| CustomerPage.CustomerDashboard.OnOrderChanged | frontend/src/pages/customer/CustomerDashboard.jsx:22-32 | replace by id: same length, an unknown id changes nothing, the cart and tab are untouched |
| DeliveryPage.DeliveryDashboard.constructor | frontend/src/pages/delivery/DeliveryDashboard.jsx:8-11 | empty lists, available tab, not loading |
| DeliveryPage.DeliveryDashboard.LoadLists | frontend/src/pages/delivery/DeliveryDashboard.jsx:13-15 | the mount-time fetches: each list takes its reply and keeps its old value when its fetch fails; tab and loading flag unchanged |
| DeliveryPage.DeliveryDashboard.OnNewOrder | frontend/src/pages/delivery/DeliveryDashboard.jsx:20-22 | the order goes in front of the pool, which grows by exactly one; nothing else changes |
| DeliveryPage.DeliveryDashboard.OnOrderLocked | frontend/src/pages/delivery/DeliveryDashboard.jsx:24-26 | no entry with the order's id remains in the pool; the agent's list is untouched |
| DeliveryPage.DeliveryDashboard.OnOrderStatusUpdated | frontend/src/pages/delivery/DeliveryDashboard.jsx:28-32 | replace by id in the agent's list only, same length; the pool is untouched |
| DeliveryPage.DeliveryDashboard.AcceptOrder | frontend/src/pages/delivery/DeliveryDashboard.jsx:59-72 | loading ends false either way; the tab switches to my-deliveries only on success; each list takes its refetched value only on success |
| DeliveryPage.DeliveryDashboard.UpdateOrderStatus | frontend/src/pages/delivery/DeliveryDashboard.jsx:74-85 | loading ends false; the agent's list is refetched only on success; pool and tab untouched |
| AdminPage.CountStatus | frontend/src/pages/admin/AdminDashboard.jsx:80-81 | the count is at most the length; it is 0 iff no entry has the status and the full length iff all have it |
| AdminPage.DistinctCountsBounded | frontend/src/pages/admin/AdminDashboard.jsx:79-81 | counts of two different statuses add up to at most the length |
| AdminPage.CountStatusAppend | frontend/src/pages/admin/AdminDashboard.jsx:28-30 | counting over a concatenation adds the counts |
| AdminPage.CalculateStats | frontend/src/pages/admin/AdminDashboard.jsx:77-85 | total = length, pending and delivered = their counts, pending + delivered ≤ total, head counts as given |
| AdminPage.ReplaceKeepsCount | frontend/src/pages/admin/AdminDashboard.jsx:34 | general fact about the replace-by-id map: when it keeps the status of every entry it touches, it keeps every status count |
| AdminPage.ReplaceNeverRaisesCount | frontend/src/pages/admin/AdminDashboard.jsx:34 | replacing by an order of another status never raises that status's count |
| AdminPage.AcceptedPendingCountDrops | frontend/src/pages/admin/AdminDashboard.jsx:33-35 | order_accepted turns a pending entry into an accepted one, so the list's pending count strictly drops while the handler keeps the old statistics: the Pending card goes stale |
| AdminPage.AdminDashboard.constructor | frontend/src/pages/admin/AdminDashboard.jsx:8-18 | empty list, zero statistics, and an empty mount-time snapshot |
| AdminPage.AdminDashboard.LoadOrders | frontend/src/pages/admin/AdminDashboard.jsx:49-57 | the list becomes the reply and the statistics are computed from it |
| AdminPage.AdminDashboard.OnOrderCreated | frontend/src/pages/admin/AdminDashboard.jsx:28-31 | the order is prepended; the statistics are computed from the order plus the mount-time list |
| AdminPage.AdminDashboard.OnOrderAccepted | frontend/src/pages/admin/AdminDashboard.jsx:33-35 | replace by id, same length; the statistics are kept |
| AdminPage.AdminDashboard.OnOrderStatusUpdated | frontend/src/pages/admin/AdminDashboard.jsx:37-40 | replace by id, same length; the statistics are computed from the mount-time list with that replacement |
| AdminPage.CreatedStatsCountOneOrder | frontend/src/pages/admin/AdminDashboard.jsx:30 | with the empty mount-time list, after order_created the Total Orders card reads one and the Pending card reads one or zero, however long the list is |
| AdminPage.StatusUpdateZeroesStats | frontend/src/pages/admin/AdminDashboard.jsx:39 | with the empty mount-time list, after order_status_updated the Total Orders, Pending and Delivered cards read zero; the two head-count fields are zero too but no card shows them |
| OrderCard.ShortId | frontend/src/components/OrderCard.jsx:8 | the last six characters of the id, or the whole id when shorter |
| OrderCard.NextStatus | frontend/src/components/OrderCard.jsx:59-84 | an advance target exists exactly for accepted, picked_up and on_the_way, and it is the next lifecycle status |
| OrderCard.Actions | frontend/src/components/OrderCard.jsx:48-86 | at most one button, none without showActions; accept iff pending with an accept handler; advance to t iff the handler is given and t is the next status; every button carries the order's id |
| OrderCard.NothingAfterDelivered | frontend/src/components/OrderCard.jsx:77-84 | a delivered order, or one with an unknown status, offers no button |
| OrderCard.TrailIsRestOfLifecycle | frontend/src/components/OrderCard.jsx:59-84 | pressing the offered button repeatedly walks exactly the rest of the lifecycle |
| OrderCard.TrailFromAccepted | frontend/src/components/OrderCard.jsx:59-84 | from accepted the buttons visit picked_up, on_the_way, delivered, each once, and stop |
| StatusBadge.ColorClass | frontend/src/components/StatusBadge.jsx:2-11 | among the table's own keys, a colour class exists exactly for the five lifecycle statuses |
| StatusBadge.ColorsAreDistinct | frontend/src/components/StatusBadge.jsx:2-8 | no two statuses share a colour |
| StatusBadge.Label | frontend/src/components/StatusBadge.jsx:12 | same length as the status; the first underscore becomes a space and every other character is upper-cased |
| StatusBadge.LabelWithoutUnderscore | frontend/src/components/StatusBadge.jsx:12 | a status without underscore is only upper-cased |
| StatusBadge.LabelPending | frontend/src/components/StatusBadge.jsx:12 | pending reads PENDING |
| StatusBadge.LabelPickedUp | frontend/src/components/StatusBadge.jsx:12 | picked_up reads PICKED UP |
| StatusBadge.LabelOnTheWay | frontend/src/components/StatusBadge.jsx:12 | on_the_way reads ON THE_WAY: an underscore survives |
| StatusBadge.LabelAll | frontend/src/components/StatusBadge.jsx:12 | corrected label: no underscore remains; each underscore is a space and every other character is upper-cased |
| StatusBadge.LabelAllAgreesUpToOneUnderscore | frontend/src/components/StatusBadge.jsx:12 | the corrected label equals the written one for every status with at most one underscore |
| StatusBadge.LabelAllOnTheWay | frontend/src/components/StatusBadge.jsx:12 | the corrected label of on_the_way is ON THE WAY |
| ProtectedRoute.Guard | frontend/src/routes/ProtectedRoute.jsx:4-24 | loading shows the loading view; no user redirects to /login; the page is shown iff a user is signed in and the role is allowed or no list is given; a disallowed role redirects to its own home |

## Left out

- Concurrency: requests are served one at a time. The server reads, checks and saves in separate database calls, so two simultaneous claims could both pass the guard. `SingleWinner` holds only for sequential histories.
- Authentication and the role middleware: the role each route demands (backend/routes/customerRoutes.js:9, backend/routes/deliveryRoutes.js:9-11) is a precondition of the `Server.OrderStore` methods.
- Database details:
  - backend/models/Order.js is not part of this model. Its defaults are assumed: status pending, an assignee that is `null` (not merely absent), and a creation timestamp. With an absent assignee, the strict `!== null` test of acceptOrder would refuse every claim with 400, while the unassigned query would still list the order.
  - Lifecycle.Update assumes the schema puts no enum validator on status. With one, a status outside the five would make `save()` throw, and the handler would reply 500 instead of 200.
  - The new id and the creation time are parameters.
  - `populate` is not modelled, so events and replies carry the stored order itself.
  - Database failures, which the handlers turn into 500 "Server error", are not modelled.
- Socket transport: rooms are not modelled. The events are those the handlers would emit if the socket server were registered; each would go to every client, so emission is an ordered event log. The dashboards' socket handlers are modelled for that intended wiring. Delivering events to each dashboard is modelled only as calls of the handler methods.
- Lifecycle.Accept: the order id is assumed to be a well-formed database id. A malformed one makes `findById` throw (backend/controllers/deliveryController.js:23), and the handler replies 500 "Server error", not 404.
- Lifecycle.Update: the order id is assumed to be well-formed, as for `Lifecycle.Accept`. A malformed id gives 500, not 404 (backend/controllers/deliveryController.js:74). The request body is also assumed to carry a status string; a body without one, which would write `undefined`, is not modelled.
- Server.OrderStore.AcceptOrder: makes the same well-formed id assumption as `Lifecycle.Accept`.
- Server.OrderStore.UpdateOrderStatus: makes the same well-formed id and status-string assumptions as `Lifecycle.Update`.
- Queries.SortNewestFirst: orders with equal creation times keep their collection order. The database does not promise any order among such ties.
- getProducts and the product catalogue are not modelled: they are a plain read of the product collection.
- Client requests and timing:
  - Server replies are parameters of the dashboard methods.
  - The mount-time fetches appear as `LoadOrders` on the customer and admin pages and as `LoadLists` on the delivery page. The unawaited refetch after placing an order appears only as `LoadOrders`.
  - Socket events arriving while a request is awaited are not interleaved.
- The admin page's customer and delivery-partner lists, their fetches, and the tab buttons of every page are not modelled.
- Alerts, console output, rendering, dates (`toLocaleString`) and floating-point money with `toFixed(2)`: prices are integer cents.
- StatusBadge.ColorClass: the lookup is modelled on the table's own keys only. In JavaScript a status naming a key inherited from `Object.prototype` (`constructor`, `toString`, `__proto__`, …) also finds a value, which would become the class text; the model gives no class for it. The server writes any status string, so such a status can be stored.
- StatusBadge.Label: upper-casing is modelled for ASCII letters only. Every status in the lifecycle is ASCII.

## Findings

| source | as written | input that shows it | evidently intended | confidence | as-written member | corrected member |
|---|---|---|---|---|---|---|
| frontend/src/components/StatusBadge.jsx:12 | `replace('_', ' ')` with a string pattern replaces only the first underscore | status on_the_way is shown as ON THE_WAY | every underscore shown as a space: ON THE WAY | high, not executed | StatusBadge.LabelOnTheWay | StatusBadge.LabelAllOnTheWay |
| backend/server.js:14-36 | the socket server is passed to the socket module but never stored with `app.set('io', io)`, so `req.app.get('io')` in the handlers (backend/controllers/customerController.js:28, backend/controllers/deliveryController.js:42, 92) is undefined and every `if (io)` is false | any order placed, claimed or updated: no client receives order_created, new_order, order_accepted, order_locked or order_status_updated | the server registered under 'io', so that each successful request broadcasts its events | high, not executed | Lifecycle.AsWiredNoClientIsNotified | Lifecycle.WiredBroadcastMatchesReply |
