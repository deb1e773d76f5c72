# Order lifecycle of a second-hand marketplace, in Dafny

This project models the order lifecycle of a second-hand trading service, as
its `OrderService` and `Product` entity implement it.

A buyer requests a product. The seller approves or rejects the request.
Approval deposits the payment unless a cancellation was already started. The
buyer may cancel:

- before payment, the cancellation takes effect at once;
- after payment, the buyer only asks, and the seller grants or refuses.

The buyer confirms a paid, approved order, and the product is then sold out.
A daily sweep sends a reminder for orders selected more than three days ago.
In a second pass, it finalises notified orders selected more than seven days
ago. `getMyOrder` lists a user's orders as seller, then as buyer. A `Product`
is built by one of three constructors, edited by a null-guarded partial
update, and has its status set by the service.

The model has five parts:

- `Common`: `Option`, `Result` and `Outcome`, plus the key types.
- `Orders`: the order row and its three state enums.
- `Products`: the `Product` class with its constructors and in-place updates. Its update is specified by the value function `UpdatedInfo`.
- `Lifecycle`: every handler as a function from the service's state (`Store`) to `Ok(new state)` or `Err(reason)`. It also holds the two-pass sweep and the `getMyOrder` projection. Each handler's contract states its guard as an if-and-only-if, its error for each failing guard, and its complete new state.
- `Service`: the `OrderService` class. It keeps the order repository as a map of rows and the product repository as a map of `Product` objects updated in place. It also keeps the sent mails and an order-number counter. Every method is proved to produce exactly the state the `Lifecycle` function gives, or to change nothing and report that function's error.

`LifecycleProperties` relates runs of handlers. `Scenarios` replays concrete
runs on a one-product shop.

Modelling conventions:

- Users are ids, and the acting user is a parameter.
- Order numbers come from a counter.
- Times are integer minutes. The wall clock is the parameter `now`.
- Three days are 4320 minutes and seven days are 10080. Both deadlines are compared strictly, like `isBefore`.
- Each e-mail is a `Notice(kind, order)` appended to an outbox, and sending never fails.
- A repository query returns the matching orders in ascending order number.

`Order.java` is not part of this model. The model takes these facts about it
as given:

- `updateRequestOrder`, `updateRequestCancelOrder` and `updatePayment` assign their field.
- `orderSuccess`, `orderNotified` and `reportOrder` set `success`, `notified` and `reported` to true.
- The constructor's initial state fields are the parameter `init: OrderFlags`. The constant `UnsetFlags` is the state with `requestOrder`, `requestCancel` and `payment` all NONE and no flag set; the concrete runs start orders there.

The model keeps these behaviours of the code as they are written:

- `approveOrder` never sets the product to RESERVED.
- `approveOrder` has no guard on the order's state, so it approves an already rejected order.
- `rejectOrder` leaves a DEPOSITED payment in place.
- The seven-day pass does not set SOLD_OUT, and it does not check `requestOrder` or `payment`.
- `reportOrder`'s guard demands that `reported` and `success` are already true, so it never passes for an order that is not yet reported. `ReportNeverEnabled` and `UnreportedOrderNeverReportable` prove the consequence: from orders that are not reported, no sequence of calls ever lets `reportOrder` succeed.

`Scenarios` shows each of the first four on a concrete run. The last one is a
statement about every run, so it is proved by the two lemmas named above.

## Model

| member | source | states |
|---|---|---|
| Products.Product.constructor | src/main/java/com/cocomo/secondhand_transaction/entity/Product.java:86-100 | every field comes from the form, status is AVAILABLE, the registration number is the fresh token, id and creation time are unset |
| Products.Product.WithCoordinates | src/main/java/com/cocomo/secondhand_transaction/entity/Product.java:103-117 | as constructor 1, except that latitude and longitude come from the arguments; status AVAILABLE |
| Products.Product.WithLocation | src/main/java/com/cocomo/secondhand_transaction/entity/Product.java:120-134 | as constructor 1, except that the location text comes from the argument; status AVAILABLE |
| Products.Product.PrePersist | src/main/java/com/cocomo/secondhand_transaction/entity/Product.java:74-77 | stamps the creation time with the supplied `now` and changes no other field |
| Products.UpdatedInfo | src/main/java/com/cocomo/secondhand_transaction/entity/Product.java:136-182 | the partial update never changes status, owner, registration number, creation time or id |
| Products.UpdatedInfoFields | src/main/java/com/cocomo/secondhand_transaction/entity/Product.java:137-180 | each of the ten editable fields becomes its non-null argument and is kept when the argument is null |
| Products.UpdatedInfoIdempotent | src/main/java/com/cocomo/secondhand_transaction/entity/Product.java:136-182 | applying the same update twice gives the same product as applying it once |
| Products.Product.UpdateProductInfo | src/main/java/com/cocomo/secondhand_transaction/entity/Product.java:136-182 | the object's new field values are exactly `UpdatedInfo` of its old ones |
| Products.Product.UpdateListing | src/main/java/com/cocomo/secondhand_transaction/entity/Product.java:137-154 | name, image, price and description are overwritten only by a non-null, different value; other fields stay |
| Products.Product.UpdateCoordinates | src/main/java/com/cocomo/secondhand_transaction/entity/Product.java:156-166 | location, latitude and longitude are overwritten by non-null arguments; other fields stay |
| Products.Product.UpdateTerms | src/main/java/com/cocomo/secondhand_transaction/entity/Product.java:169-181 | place and category are overwritten by non-null, different values and the time slots by non-null ones; other fields stay |
| Products.Product.UpdateProductStatus | src/main/java/com/cocomo/secondhand_transaction/entity/Product.java:185-187 | status becomes the argument and no other field changes |
| Lifecycle.Request | src/main/java/com/cocomo/secondhand_transaction/service/OrderService.java:47-71 | succeeds iff the product exists and is AVAILABLE. Otherwise it fails with not-found, reserved, sold-out or unavailable and creates nothing. On success: exactly one new order under a fresh number, whose seller is the product's owner; other orders and every product unchanged; one request mail |
| Lifecycle.Approve | src/main/java/com/cocomo/secondhand_transaction/service/OrderService.java:74-95 | succeeds iff the order exists and the caller is its seller, whatever its state. APPROVED; DEPOSITED exactly when no cancellation was started, else payment kept; product untouched; one approval mail |
| Lifecycle.Reject | src/main/java/com/cocomo/secondhand_transaction/service/OrderService.java:98-119 | succeeds iff the caller is the order's seller. REJECTED, payment and cancellation kept, product AVAILABLE, one rejection mail |
| Lifecycle.Cancel | src/main/java/com/cocomo/secondhand_transaction/service/OrderService.java:122-155 | succeeds iff the caller is the order's buyer. Before payment: request NONE, cancellation APPROVED, payment REFUND, product AVAILABLE. After payment: only the cancellation becomes REQUESTED. One mail either way |
| Lifecycle.ApproveCancel | src/main/java/com/cocomo/secondhand_transaction/service/OrderService.java:158-182 | succeeds iff the caller is the seller and a cancellation is REQUESTED; otherwise it fails and changes nothing. Cancellation APPROVED, request NONE, payment REFUND, product AVAILABLE |
| Lifecycle.RejectCancel | src/main/java/com/cocomo/secondhand_transaction/service/OrderService.java:185-205 | succeeds iff the caller is the seller and a cancellation is REQUESTED; then only the cancellation becomes REJECTED, plus one mail |
| Lifecycle.Confirm | src/main/java/com/cocomo/secondhand_transaction/service/OrderService.java:208-233 | succeeds iff the caller is the buyer and the order is APPROVED, not cancel-approved and DEPOSITED (so never with payment NONE); then success, product SOLD_OUT, one mail |
| Lifecycle.Report | src/main/java/com/cocomo/secondhand_transaction/service/OrderService.java:294-310 | succeeds iff the caller is the buyer, the order is already reported and successful, and `now` is not before its selected time; a buyer who fails that guard gets the report error; on success: notified, product REPORTED, no mail |
| Orders.NewOrder | src/main/java/com/cocomo/secondhand_transaction/service/OrderService.java:66-66 | a new order carries the given number, seller, buyer, product and selected time, and its state fields are exactly the initial flags |
| Lifecycle.FindBy | src/main/java/com/cocomo/secondhand_transaction/service/OrderService.java:250-250 | a repository query returns exactly the stored orders that match, each once, in ascending order |
| Lifecycle.PhaseNotices | src/main/java/com/cocomo/secondhand_transaction/service/OrderService.java:251-259 | a pass sends no more mails than it lists orders, and each mail is of the pass's kind and names a listed order that is due |
| Lifecycle.PhaseNoticesComplete | src/main/java/com/cocomo/secondhand_transaction/service/OrderService.java:251-259 | every listed order that is due gets the pass's mail |
| Lifecycle.RunPhase | src/main/java/com/cocomo/secondhand_transaction/service/OrderService.java:250-259 | one pass keeps the set of orders, the products and the counter; each order is either unchanged or marked by the pass; mail is only appended |
| Lifecycle.Sweep | src/main/java/com/cocomo/secondhand_transaction/service/OrderService.java:244-272 | the sweep keeps the set of orders, the products and the counter; only `notified` and `success` can change; mail is only appended |
| Lifecycle.MyOrders | src/main/java/com/cocomo/secondhand_transaction/service/OrderService.java:275-291 | the seller rows come first, and each is the projection of a stored order the user sells; each remaining row is the projection of a stored order the user buys; the length is the sum of both query results |
| LifecycleProperties.ForeignActorChangesNothing | src/main/java/com/cocomo/secondhand_transaction/service/OrderService.java:81-83 | every order-naming call from anyone but the required seller or buyer fails with the matching authorization error and changes nothing |
| LifecycleProperties.StepPreservesWellFormed | src/main/java/com/cocomo/secondhand_transaction/service/OrderService.java:63-67 | every call keeps each order under its own number below the counter, each order's product stored, each product under its own number |
| LifecycleProperties.RunPreservesWellFormed | src/main/java/com/cocomo/secondhand_transaction/service/OrderService.java:63-67 | the same holds after any sequence of calls |
| LifecycleProperties.RunPhaseKeepsWellFormed | src/main/java/com/cocomo/secondhand_transaction/service/OrderService.java:250-271 | each sweep pass alone keeps the stores well formed |
| LifecycleProperties.RequestAddsOneOrder | src/main/java/com/cocomo/secondhand_transaction/service/OrderService.java:66-67 | a successful request grows the order store by exactly one |
| LifecycleProperties.StepKeepsReported | src/main/java/com/cocomo/secondhand_transaction/service/OrderService.java:301-305 | no call removes an order or changes its `reported` flag |
| LifecycleProperties.RunKeepsReported | src/main/java/com/cocomo/secondhand_transaction/service/OrderService.java:301-305 | no sequence of calls removes an order or changes its `reported` flag |
| LifecycleProperties.StepKeepsNoneReported | src/main/java/com/cocomo/secondhand_transaction/service/OrderService.java:301-305 | when no order is reported and new orders start unreported, no call makes one reported |
| LifecycleProperties.RunKeepsNoneReported | src/main/java/com/cocomo/secondhand_transaction/service/OrderService.java:301-305 | the same holds over any sequence of calls |
| LifecycleProperties.ReportNeverEnabled | src/main/java/com/cocomo/secondhand_transaction/service/OrderService.java:301-304 | starting with no reported order, `reportOrder` fails after every sequence of calls |
| LifecycleProperties.UnreportedOrderNeverReportable | src/main/java/com/cocomo/secondhand_transaction/service/OrderService.java:301-304 | an order that is not reported can never be reported, after any sequence of calls |
| LifecycleProperties.SweepKeepsOrderIdentity | src/main/java/com/cocomo/secondhand_transaction/service/OrderService.java:244-272 | the sweep keeps the set of orders, the products and the counter, and changes only `notified` and `success` |
| LifecycleProperties.SweepFlags | src/main/java/com/cocomo/secondhand_transaction/service/OrderService.java:250-271 | after a sweep: notified iff already notified or (unsuccessful and selected strictly before now minus 3 days); successful iff already successful or (unreported, notified after pass 1, and selected strictly before now minus 7 days) |
| LifecycleProperties.SweepLeavesSuccessfulOrders | src/main/java/com/cocomo/secondhand_transaction/service/OrderService.java:250-271 | a successful order is left exactly as it was |
| LifecycleProperties.PhaseNoticesOrdered | src/main/java/com/cocomo/secondhand_transaction/service/OrderService.java:251-259 | walking the query result in ascending order, a pass sends its mails in strictly ascending order number, so no order gets two |
| LifecycleProperties.PassMailExact | src/main/java/com/cocomo/secondhand_transaction/service/OrderService.java:250-259 | on a well-formed store, a pass sends mail of its kind to exactly the orders that are due, once each, in ascending order |
| LifecycleProperties.SweepMail | src/main/java/com/cocomo/secondhand_transaction/service/OrderService.java:244-272 | a sweep appends the reminders, then the auto-confirmation mails; a reminder goes to exactly the orders whose `notified` it sets and a confirmation mail to exactly those whose `success` it sets, each batch in ascending order |
| LifecycleProperties.NothingDueNoNotices | src/main/java/com/cocomo/secondhand_transaction/service/OrderService.java:251-259 | a pass over orders none of which is due sends no mail |
| LifecycleProperties.NothingDuePhaseIsIdentity | src/main/java/com/cocomo/secondhand_transaction/service/OrderService.java:251-259 | a pass over orders none of which is due changes nothing |
| LifecycleProperties.NothingDueAfterSweep | src/main/java/com/cocomo/secondhand_transaction/service/OrderService.java:244-272 | after a sweep at `now`, no order is due for either pass at `now` |
| LifecycleProperties.SweepIdempotent | src/main/java/com/cocomo/secondhand_transaction/service/OrderService.java:244-272 | a second sweep at the same time sends no mail and changes nothing |
| LifecycleProperties.MyOrdersComplete | src/main/java/com/cocomo/secondhand_transaction/service/OrderService.java:277-279 | every order the user sells appears in the seller part, and every order the user buys appears in the buyer part |
| LifecycleProperties.FindByListsExactly | src/main/java/com/cocomo/secondhand_transaction/service/OrderService.java:277-279 | on a well-formed store, a repository query lists every matching stored order and nothing else, once each, in ascending order |
| LifecycleProperties.MyOrdersExact | src/main/java/com/cocomo/secondhand_transaction/service/OrderService.java:277-290 | on a well-formed store, the rows are exactly one projection per order the user sells, in ascending order number, followed by one projection per order the user buys, and nothing else |
| Scenarios.RequestApproveConfirm | src/main/java/com/cocomo/secondhand_transaction/service/OrderService.java:85-90 | request, approve, confirm: DEPOSITED on approval, the product stays AVAILABLE until it becomes SOLD_OUT, and three mails |
| Scenarios.ApprovedProductStillRequestable | src/main/java/com/cocomo/secondhand_transaction/service/OrderService.java:54-60 | once an order is approved, a second buyer can still request the same product |
| Scenarios.ApproveAfterReject | src/main/java/com/cocomo/secondhand_transaction/service/OrderService.java:81-89 | a rejected order can be approved afterwards, and its payment is then deposited |
| Scenarios.RejectKeepsDeposit | src/main/java/com/cocomo/secondhand_transaction/service/OrderService.java:109-115 | rejecting an approved order leaves its payment DEPOSITED and makes the product AVAILABLE |
| Scenarios.RejectThenRequestAgain | src/main/java/com/cocomo/secondhand_transaction/service/OrderService.java:109-115 | after a rejection the product is AVAILABLE and another buyer's request succeeds |
| Scenarios.RefusedCancellationStillConfirmable | src/main/java/com/cocomo/secondhand_transaction/service/OrderService.java:196-204 | a paid order whose cancellation the seller refused stays DEPOSITED and can be confirmed |
| Scenarios.ReminderSentOnce | src/main/java/com/cocomo/secondhand_transaction/service/OrderService.java:250-259 | an order selected 4 days ago gets exactly one reminder; a second sweep sends nothing more |
| Scenarios.StaleOrderFinalisedInOneSweep | src/main/java/com/cocomo/secondhand_transaction/service/OrderService.java:262-271 | one sweep both reminds and finalises a never-approved order selected 8 days ago; its payment stays NONE and its product AVAILABLE |
| Service.OrderService.constructor | src/main/java/com/cocomo/secondhand_transaction/service/OrderService.java:29-36 | the service starts with no orders and no mail, over the given product store, and its state is well formed |
| Service.OrderService.SetProductStatus | src/main/java/com/cocomo/secondhand_transaction/service/OrderService.java:113-115 | updating one product object in place changes that product's status in the store and no other product |
| Service.OrderService.SaveWithProductStatus | src/main/java/com/cocomo/secondhand_transaction/service/OrderService.java:109-118 | saves the order, sets its product's status and appends the mails; nothing else changes |
| Service.OrderService.RequestOrder | src/main/java/com/cocomo/secondhand_transaction/service/OrderService.java:47-71 | leaves exactly the state `Lifecycle.Request` gives, or reports its error and changes nothing; stays well formed |
| Service.OrderService.ApproveOrder | src/main/java/com/cocomo/secondhand_transaction/service/OrderService.java:74-95 | leaves exactly the state `Lifecycle.Approve` gives, or reports its error and changes nothing |
| Service.OrderService.RejectOrder | src/main/java/com/cocomo/secondhand_transaction/service/OrderService.java:98-119 | leaves exactly the state `Lifecycle.Reject` gives, including the product updated in place, or reports its error and changes nothing |
| Service.OrderService.CancelOrder | src/main/java/com/cocomo/secondhand_transaction/service/OrderService.java:122-155 | leaves exactly the state `Lifecycle.Cancel` gives on both branches, or reports its error and changes nothing |
| Service.OrderService.ApproveCancel | src/main/java/com/cocomo/secondhand_transaction/service/OrderService.java:158-182 | leaves exactly the state `Lifecycle.ApproveCancel` gives, or reports its error and changes nothing |
| Service.OrderService.RejectCancel | src/main/java/com/cocomo/secondhand_transaction/service/OrderService.java:185-205 | leaves exactly the state `Lifecycle.RejectCancel` gives, or reports its error and changes nothing |
| Service.OrderService.ConfirmOrder | src/main/java/com/cocomo/secondhand_transaction/service/OrderService.java:208-233 | leaves exactly the state `Lifecycle.Confirm` gives, or reports its error and changes nothing |
| Service.OrderService.MarkIfDue | src/main/java/com/cocomo/secondhand_transaction/service/OrderService.java:252-258 | one iteration: a due order gets the pass's mail and is marked; any other order and the outbox stay as they were |
| Service.OrderService.MarkDue | src/main/java/com/cocomo/secondhand_transaction/service/OrderService.java:251-259 | the loop marks exactly the listed orders that are due, leaves every other order alone, and sends the pass's mails in list order |
| Service.OrderService.RunPhase | src/main/java/com/cocomo/secondhand_transaction/service/OrderService.java:250-259 | one query-and-loop pass leaves exactly the state `Lifecycle.RunPhase` gives |
| Service.OrderService.ProcessOrderNotifications | src/main/java/com/cocomo/secondhand_transaction/service/OrderService.java:244-272 | the two loops leave exactly `Lifecycle.Sweep` of the old state, whose properties `LifecycleProperties` proves |
| Service.OrderService.GetMyOrder | src/main/java/com/cocomo/secondhand_transaction/service/OrderService.java:275-291 | returns `Lifecycle.MyOrders` of the current state and changes nothing |
| Service.OrderService.ReportOrder | src/main/java/com/cocomo/secondhand_transaction/service/OrderService.java:294-310 | leaves exactly the state `Lifecycle.Report` gives, or reports its error and changes nothing |

## Left out

- E-mail rendering and SMTP delivery (`EmailService`) are not modelled. Each mail is a `Notice` of its kind for its order, and sending never fails. The recipients and the template contents are not modelled.
- The Spring Security lookup of the acting user is left out, along with its "user not found" failure. The actor is a user-id parameter. User equality is id equality, and nicknames, e-mail addresses and phone numbers are not modelled.
- Parsing of `selectedTime` with `yyyy-MM-dd-HH-mm` is left out. Times are integer minutes. A parse failure, which would abort the transactional sweep, is not modelled.
- `LocalDateTime.now()` is not modelled. The clock is the parameter `now` of the sweep and of `reportOrder`.
- Clock precision: the wall clock has seconds, but `selectedTime` has whole minutes. `now` is a whole minute. For the sweep it stands for the current time rounded up to the next minute, since a strict `isBefore` against a time with seconds passes one minute earlier than against the minute itself. For `reportOrder` it stands for the current time rounded down. Sub-minute precision is not modelled.
- `generateProductNumber` is not modelled. The random UUID is replaced by a `token` parameter.
- Product registration and lookup outside the three constructors are not part of this model, and neither are the JPA repositories' persistence. The order number is issued by a counter rather than by `Order.java`, which is not part of this model.
- Repository query order is not specified by the source. The model assumes ascending order number.
- `@Transactional` and `@Scheduled` concurrency and locking are left out. Each handler runs atomically.
- Java reference aliasing of the `time` list between the form and the product is not captured. The list is copied as a value.
- Products.Product.UpdateProductInfo: the 32-bit `Integer` price is an unbounded integer. Only values are copied, so no overflow can occur.
- Latitude and longitude are `Double` values kept as their 64-bit pattern. They are only copied, so no floating-point arithmetic is modelled.
- Service.OrderService.GetMyOrder: the Java stream appends the buyer list to the mutable seller list in place. The model builds the concatenation as a value.
