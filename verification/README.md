# neocommercepay order / payment / stock choreography in Dafny

This project models the core of neocommercepay, a shop built from three
services that talk to each other only through Kafka events.

- **Order service.** It creates orders, with their total computed as an exact
  `BigDecimal` sum. It changes and cancels an order's status and records every
  change in a status history table. It publishes `order.created`,
  `order.updated` and `order.cancelled`.
- **Payment service.** It initiates a payment under an idempotency key. The
  `payments` table also has a unique order column. The service processes a
  payment through a processor whose verdict is a parameter here, and it
  refunds a completed payment. Each step writes the ledger of charges and
  refunds, the audit log and one event per step.
- **Product service.** It keeps one stock record per product, with a total,
  a reserved and an available count held as Java `Integer`s. A decrement that
  leaves five or fewer available raises an `inventory.depleted` alert.
- **The listeners that connect them.**
  - The order service turns `payment.completed` into PAID.
  - It turns `payment.failed` into a cancellation with the reason
    `"Payment failed: " + reason`.
  - The payment service starts a payment for every `order.created`, under a
    retry policy that generates a fresh idempotency key on each attempt.
  - The product service decrements the stock of every item of every
    `order.created`, under a retry policy that starts the item loop again from
    the first item.
  - Every listener acknowledges the record exactly once and swallows any
    exception.

Each service is a `class` whose fields are its tables. Each producer is a class
whose `sent` sequence holds every message handed to the transport, oldest
first. Every service call is also written as a function from the state before
the call to a step: the new state, the messages sent and the value returned or
the exception thrown. The methods are proved to change the fields exactly as
that function says. The lemmas about the functions are where the properties
live: the invariants each call keeps, what a redelivery or a retry does, and
how the ledger follows the payment status.

Modelling choices:

- `BigDecimal` money is `real`, which is exact.
- Java `Integer` stock arithmetic is the `Int32` subtype. Its wrap-around is
  written out in `Wrap32`.
- A nullable Java `String` is `Option<string>`. Java's string concatenation
  renders null as `"null"`.
- A record that cannot be read into its event class arrives as `None`.
- Generated UUIDs and the processor's verdict are parameters.
- The `RetryTemplate` becomes a number of allowed attempts. For the payment
  listener this is the list of keys its attempts generate.
- `@CreationTimestamp` reads a logical clock that ticks once per insert.

Where the design documentation and the code differ, the model
follows the code:

- `createOrder` does not validate its items. An empty list gives a PENDING
  order with total 0.
- The cancellation reason prefix is `"Payment failed: "`.
- The payment listener only initiates the payment and never processes it.
- `updateOrderStatus` appends a history row even when the status does not
  change. A repeated PAID or CANCELLED is not a no-op.

## Model

Source paths are relative to the repository root.

| member | source | states |
|---|---|---|
| Common.DispositionOf | order-service/src/main/java/com/neocommercepay/order/event/PaymentEventConsumer.java:34-37 | a listener reports success exactly when the call returned; any exception is swallowed with its kind, never rethrown |
| Common.Wrap32 | product-service/src/main/java/com/neocommercepay/product/service/InventoryService.java:46-47 | Java `int` subtraction/addition: the exact result when it fits in 32 bits, otherwise a value congruent to it modulo 2^32 inside the `Integer` range |
| KafkaTopics.Listens | product-service/src/main/java/com/neocommercepay/product/event/OrderCreatedEventConsumer.java:23 | no listener is registered on a dead-letter topic; only the order group hears `payment.failed` (so stock never reacts to a failed payment); the payment and product groups, and only they, hear `order.created` |
| OrderEntities.ReduceIsSum | order-service/src/main/java/com/neocommercepay/order/service/OrderService.java:29-31 | the stream's left fold `reduce(acc, add)` over the line amounts equals the accumulator plus the recursive sum of price × quantity |
| OrderEntities.TotalAmount | order-service/src/main/java/com/neocommercepay/order/service/OrderService.java:29-31 | the stored total is the sum over the items of price × quantity, and 0 for no items |
| OrderEntities.TotalAmountAppend | order-service/src/main/java/com/neocommercepay/order/service/OrderService.java:30-31 | the total of a concatenation of item lists is the sum of their totals |
| OrderEntities.HistoryOf | order-service/src/main/java/com/neocommercepay/order/service/OrderService.java:116-118 | the history query returns no more rows than the table holds |
| OrderEntities.HistoryOfMembers | order-service/src/main/java/com/neocommercepay/order/service/OrderService.java:117 | a row is in an order's history exactly when it is in the table and carries that order id |
| OrderEntities.HistoryOfAppend | order-service/src/main/java/com/neocommercepay/order/service/OrderService.java:48 | inserting a row appends it to its own order's history and leaves every other order's history unchanged |
| OrderEvents.ItemLines | order-service/src/main/java/com/neocommercepay/order/event/OrderEventProducer.java:30-36 | the event's item lines match the order's items one for one, in order, copying product id, quantity and price |
| OrderEvents.EventsCopyOrder | order-service/src/main/java/com/neocommercepay/order/event/OrderEventProducer.java:25-29 | the created event copies id, user, total and status name and has one line per item; the updated event names both statuses; the cancelled event carries the reason unchanged; distinct statuses have distinct names |
| OrderEvents.OrderEventProducer.PublishOrderCreated | order-service/src/main/java/com/neocommercepay/order/event/OrderEventProducer.java:24-43 | exactly one unkeyed message to `order.created` carrying the order's created event is appended; earlier messages stay |
| OrderEvents.OrderEventProducer.PublishOrderUpdated | order-service/src/main/java/com/neocommercepay/order/event/OrderEventProducer.java:45-56 | exactly one unkeyed message to `order.updated` with the old and new status is appended |
| OrderEvents.OrderEventProducer.PublishOrderCancelled | order-service/src/main/java/com/neocommercepay/order/event/OrderEventProducer.java:58-69 | exactly one unkeyed message to `order.cancelled` with the given order, user and (possibly null) reason is appended |
| Orders.Create | order-service/src/main/java/com/neocommercepay/order/service/OrderService.java:28-54 | always succeeds: a PENDING order with the caller's user and items and the summed total is stored under the next identity value, which no stored order holds while the ids are consistent, the counter advances, one history row (no old status, PENDING) is appended after the old rows, and exactly one OrderCreated for that order is sent |
| Orders.GetOrder | order-service/src/main/java/com/neocommercepay/order/service/OrderService.java:56-59 | returns the stored order exactly when the id is known, otherwise NotFound |
| Orders.UpdateStatus | order-service/src/main/java/com/neocommercepay/order/service/OrderService.java:69-88 | unknown id: NotFound and nothing changes; otherwise any target status is set, the row (old, new) is appended even when they are equal, the identity counter is untouched, and exactly one unkeyed OrderUpdated naming the old and new status is sent |
| Orders.Cancel | order-service/src/main/java/com/neocommercepay/order/service/OrderService.java:90-114 | unknown id: NotFound, SHIPPED or DELIVERED: IllegalState, both with no change; otherwise CANCELLED (again, if it already was), row (old, CANCELLED) appended, identity counter untouched, and one OrderCancelled with the given reason sent |
| Orders.CreatePreservesInv | order-service/src/main/java/com/neocommercepay/order/service/OrderService.java:42-48 | creating an order keeps the order invariant: ids, totals, row stamps and every order's history replaying to its current status |
| Orders.TransitionPreservesInv | order-service/src/main/java/com/neocommercepay/order/entity/OrderStatusHistory.java:24-37 | a status change with its (old, new) row keeps every history a trail: first row without old status and PENDING, each later old status equal to the previous new status, last new status equal to the order's status |
| Orders.UpdatePreservesInv | order-service/src/main/java/com/neocommercepay/order/service/OrderService.java:74-82 | `updateOrderStatus` keeps the order invariant, whatever the id and target |
| Orders.CancelPreservesInv | order-service/src/main/java/com/neocommercepay/order/service/OrderService.java:94-108 | `cancelOrder` keeps the order invariant, whether it is refused or not |
| Orders.CreateStartsHistory | order-service/src/main/java/com/neocommercepay/order/service/OrderService.java:44-48 | a new order's history is exactly its one creation row: no old status, PENDING, stamped at creation |
| Orders.OrderService.CreateOrder | order-service/src/main/java/com/neocommercepay/order/service/OrderService.java:28-54 | the tables, the outbox and the returned order are those of `Create`, and the order invariant still holds |
| Orders.OrderService.GetOrderById | order-service/src/main/java/com/neocommercepay/order/service/OrderService.java:56-59 | returns what `GetOrder` gives on the current tables |
| Orders.OrderService.UpdateOrderStatus | order-service/src/main/java/com/neocommercepay/order/service/OrderService.java:70-88 | the tables, outbox and result are those of `UpdateStatus`, and the order invariant still holds |
| Orders.OrderService.CancelOrder | order-service/src/main/java/com/neocommercepay/order/service/OrderService.java:91-114 | the tables, outbox and result are those of `Cancel`, and the order invariant still holds |
| Orders.OrderService.GetOrderHistory | order-service/src/main/java/com/neocommercepay/order/service/OrderService.java:116-117 | returns the rows of that order (the model keeps table order, see Left out) |
| OrderConsumers.OnPaymentCompleted | order-service/src/main/java/com/neocommercepay/order/event/PaymentEventConsumer.java:23-38 | a readable completion for a known order marks it PAID, returns the PAID order, appends the row (old, PAID) and sends one OrderUpdated; an unreadable record is Malformed and an unknown order NotFound, both changing nothing |
| OrderConsumers.FailureReason | order-service/src/main/java/com/neocommercepay/order/event/PaymentEventConsumer.java:46 | the cancellation reason is "Payment failed: " followed by the event's reason, or by "null" when it is absent |
| OrderConsumers.OnPaymentFailed | order-service/src/main/java/com/neocommercepay/order/event/PaymentEventConsumer.java:40-55 | a readable failure for a known, unfulfilled order returns the CANCELLED order, appends the row (old, CANCELLED) and sends one OrderCancelled with the prefixed reason; unreadable: Malformed, unknown order: NotFound, shipped or delivered: IllegalState; nothing changes on any failure |
| OrderConsumers.ListenersPreserveInv | order-service/src/main/java/com/neocommercepay/order/event/PaymentEventConsumer.java:29 | both listeners keep the order invariant whatever record arrives |
| OrderConsumers.CompletedRedelivered | order-service/src/main/java/com/neocommercepay/order/event/PaymentEventConsumer.java:26-30 | a completion delivered twice leaves the order PAID but appends two history rows, the second from PAID to PAID, and sends two messages |
| OrderConsumers.FailedAfterFulfilment | order-service/src/main/java/com/neocommercepay/order/event/PaymentEventConsumer.java:51-54 | a failure for a shipped or delivered order changes nothing and is swallowed as IllegalState |
| OrderConsumers.PaymentEventConsumer.ConsumePaymentCompleted | order-service/src/main/java/com/neocommercepay/order/event/PaymentEventConsumer.java:24-37 | the order tables and outbox change as `OnPaymentCompleted` says, the outcome is its disposition, and the record is acknowledged exactly once on every path |
| OrderConsumers.PaymentEventConsumer.ConsumePaymentFailed | order-service/src/main/java/com/neocommercepay/order/event/PaymentEventConsumer.java:41-54 | the order tables and outbox change as `OnPaymentFailed` says, the outcome is its disposition, and the record is acknowledged exactly once on every path |
| PaymentEvents.EventsCopyPayment | payment-service/src/main/java/com/neocommercepay/payment/event/PaymentEventProducer.java:21-88 | every payment event copies payment id, order id and amount; the initiated event carries the status name, the completed one the transaction id, the failed and refunded ones the reason, unchanged |
| PaymentEvents.PaymentEventProducer.PublishPaymentInitiated | payment-service/src/main/java/com/neocommercepay/payment/event/PaymentEventProducer.java:21-33 | exactly one unkeyed message to `payment.initiated` is appended |
| PaymentEvents.PaymentEventProducer.PublishPaymentProcessing | payment-service/src/main/java/com/neocommercepay/payment/event/PaymentEventProducer.java:35-46 | exactly one unkeyed message to `payment.processing` is appended |
| PaymentEvents.PaymentEventProducer.PublishPaymentCompleted | payment-service/src/main/java/com/neocommercepay/payment/event/PaymentEventProducer.java:48-60 | exactly one unkeyed message to `payment.completed` is appended |
| PaymentEvents.PaymentEventProducer.PublishPaymentFailed | payment-service/src/main/java/com/neocommercepay/payment/event/PaymentEventProducer.java:62-74 | exactly one unkeyed message to `payment.failed` is appended |
| PaymentEvents.PaymentEventProducer.PublishPaymentRefunded | payment-service/src/main/java/com/neocommercepay/payment/event/PaymentEventProducer.java:76-88 | exactly one unkeyed message to `payment.refunded` is appended |
| Ledger.TransactionsOf | payment-service/src/main/java/com/neocommercepay/payment/service/TransactionService.java:33-35 | the per-payment query returns no more entries than the ledger holds |
| Ledger.TransactionsOfMembers | payment-service/src/main/java/com/neocommercepay/payment/service/TransactionService.java:34 | an entry is returned for a payment exactly when it is in the ledger and carries that payment id |
| Ledger.TransactionsOfAppend | payment-service/src/main/java/com/neocommercepay/payment/service/TransactionService.java:28 | logging an entry appends it to its own payment's entries and to no other |
| Ledger.TransactionService.LogTransaction | payment-service/src/main/java/com/neocommercepay/payment/service/TransactionService.java:19-31 | the returned entry carries the given payment, type, amount and transaction id, and the ledger is the old ledger plus exactly that entry |
| Ledger.TransactionService.GetTransactionsByPaymentId | payment-service/src/main/java/com/neocommercepay/payment/service/TransactionService.java:33-35 | returns exactly the entries whose payment id matches (the model keeps table order, see Left out) |
| Audit.AuditLogsOf | payment-service/src/main/java/com/neocommercepay/payment/service/AuditService.java:29-31 | the per-payment query returns no more entries than the log holds |
| Audit.AuditLogsOfMembers | payment-service/src/main/java/com/neocommercepay/payment/service/AuditService.java:30 | an entry is returned for a payment exactly when it is in the log and carries that payment id |
| Audit.AuditLogsOfAppend | payment-service/src/main/java/com/neocommercepay/payment/service/AuditService.java:25 | logging an action appends it to its own payment's entries and to no other |
| Audit.AuditService.LogAction | payment-service/src/main/java/com/neocommercepay/payment/service/AuditService.java:18-27 | the log is the old log plus exactly one entry with the given action, payment and details; it modifies nothing else |
| Audit.AuditService.GetAuditLogsByPaymentId | payment-service/src/main/java/com/neocommercepay/payment/service/AuditService.java:29-31 | returns exactly the entries whose payment id matches (the model keeps table order, see Left out) |
| Payments.GetPayment | payment-service/src/main/java/com/neocommercepay/payment/service/PaymentService.java:122-125 | returns the stored payment exactly when the id is known, otherwise NotFound |
| Payments.Initiate | payment-service/src/main/java/com/neocommercepay/payment/service/PaymentService.java:29-49 | a known key: Business; an order that already has a payment: the unique column rejects the insert; both change nothing and send nothing; otherwise one INITIATED payment with the given order, amount and key and no transaction id, one PAYMENT_INITIATED audit entry, no ledger entry, one PaymentInitiated |
| Payments.Process | payment-service/src/main/java/com/neocommercepay/payment/service/PaymentService.java:51-96 | unknown id: NotFound, status other than INITIATED: Business, no change; otherwise PaymentProcessing then COMPLETED with the transaction id, one CHARGE of the payment's amount under that id and PaymentCompleted, or FAILED, no ledger entry and PaymentFailed "Payment processor declined"; never left PROCESSING |
| Payments.Refund | payment-service/src/main/java/com/neocommercepay/payment/service/PaymentService.java:98-120 | unknown id: NotFound, not COMPLETED: Business, no change; otherwise REFUNDED, one REFUND entry of the same amount, the audit entry with the reason, one PaymentRefunded with the reason |
| Payments.InitiateTable | payment-service/src/main/java/com/neocommercepay/payment/entity/Payment.java:25-43 | initiating keeps order ids and idempotency keys unique, ids below the identity counter, creation stamps in the past and no payment PROCESSING |
| Payments.InitiatePreservesInv | payment-service/src/main/java/com/neocommercepay/payment/service/PaymentService.java:42-45 | initiating keeps the payment invariant: table, status/transaction-id agreement, ledger, charge and refund counts, audit |
| Payments.ProcessPreservesInv | payment-service/src/main/java/com/neocommercepay/payment/service/PaymentService.java:59-91 | processing keeps the payment invariant: a payment is charged once exactly when approved, and has a transaction id exactly when charged |
| Payments.RefundPreservesInv | payment-service/src/main/java/com/neocommercepay/payment/service/PaymentService.java:106-116 | refunding keeps the payment invariant: a refunded payment has exactly one charge and one refund |
| Payments.InitiateExtends | payment-service/src/main/java/com/neocommercepay/payment/service/PaymentService.java:35-42 | initiating never edits an existing payment's order, amount, key or creation stamp, and ledger and audit only grow |
| Payments.ProcessExtends | payment-service/src/main/java/com/neocommercepay/payment/service/PaymentService.java:53-86 | processing never changes any payment's order id, amount, key or creation stamp, and ledger and audit only grow |
| Payments.RefundExtends | payment-service/src/main/java/com/neocommercepay/payment/service/PaymentService.java:100-114 | refunding never changes any payment's order id, amount, key or creation stamp, and ledger and audit only grow |
| Payments.BalanceFollowsStatus | payment-service/src/main/java/com/neocommercepay/payment/service/PaymentService.java:74-111 | under the invariant, a payment's ledger balance (charges minus refunds) is its amount while COMPLETED and zero otherwise |
| Payments.PaymentService.GetPaymentById | payment-service/src/main/java/com/neocommercepay/payment/service/PaymentService.java:122-124 | returns what `GetPayment` gives on the current table |
| Payments.PaymentService.GetPaymentByOrderId | payment-service/src/main/java/com/neocommercepay/payment/service/PaymentService.java:127-130 | succeeds exactly when some payment belongs to the order and then returns that stored payment; otherwise NotFound |
| Payments.PaymentService.InitiatePayment | payment-service/src/main/java/com/neocommercepay/payment/service/PaymentService.java:30-48 | the table, ledger, audit log, outbox and result are those of `Initiate`, and the payment invariant still holds |
| Payments.PaymentService.ProcessPayment | payment-service/src/main/java/com/neocommercepay/payment/service/PaymentService.java:52-95 | the table, ledger, audit log, outbox and result are those of `Process` with the processor's verdict, and the payment invariant still holds |
| Payments.PaymentService.ChargeOrDecline | payment-service/src/main/java/com/neocommercepay/payment/service/PaymentService.java:53-94 | the status check, the PROCESSING write and the verdict's branch change the state exactly as `Process` says |
| Payments.PaymentService.RefundPayment | payment-service/src/main/java/com/neocommercepay/payment/service/PaymentService.java:99-119 | the table, ledger, audit log, outbox and result are those of `Refund`, and the payment invariant still holds |
| PaymentConsumers.Attempts | payment-service/src/main/java/com/neocommercepay/payment/event/OrderCreatedEventConsumer.java:31-35 | the attempts stop at the first success or after the last allowed one, and no allowed attempts means exhausted; a success is an INITIATED payment for the event's order and amount under one of the generated keys with the ledger untouched (nothing processes it); a failure changes nothing |
| PaymentConsumers.OnOrderCreated | payment-service/src/main/java/com/neocommercepay/payment/event/OrderCreatedEventConsumer.java:26-43 | an unreadable record changes nothing; a readable one runs the attempts with the event's order id and total |
| PaymentConsumers.FreshKeysDefeatGuard | payment-service/src/main/java/com/neocommercepay/payment/event/OrderCreatedEventConsumer.java:32 | with freshly generated keys the duplicate-key guard never fires; the attempts succeed exactly when the order has no payment yet, and otherwise every allowed attempt fails on the unique order column |
| PaymentConsumers.RedeliveryRejected | payment-service/src/main/java/com/neocommercepay/payment/entity/Payment.java:25 | after a record has started a payment, redelivering it starts none: every retry is rejected by the unique order column and nothing changes |
| PaymentConsumers.OrderCreatedEventConsumer.ConsumeOrderCreated | payment-service/src/main/java/com/neocommercepay/payment/event/OrderCreatedEventConsumer.java:25-44 | the payment state and outbox change as `OnOrderCreated` says, the attempt count and outcome are its own, and the record is acknowledged exactly once |
| ProductEvents.EventsNameProduct | product-service/src/main/java/com/neocommercepay/product/event/ProductEventProducer.java:21-68 | the product events copy id, name, description, price, category name and stock; the deleted one carries the id; the alert carries the product id, the stock passed in and the name "Product-" followed by the id |
| ProductEvents.ProductEventProducer.PublishProductCreated | product-service/src/main/java/com/neocommercepay/product/event/ProductEventProducer.java:21-35 | exactly one unkeyed message to `product.created` is appended |
| ProductEvents.ProductEventProducer.PublishProductUpdated | product-service/src/main/java/com/neocommercepay/product/event/ProductEventProducer.java:37-51 | exactly one unkeyed message to `product.updated` is appended |
| ProductEvents.ProductEventProducer.PublishProductDeleted | product-service/src/main/java/com/neocommercepay/product/event/ProductEventProducer.java:53-62 | exactly one unkeyed message to `product.deleted` is appended |
| ProductEvents.ProductEventProducer.PublishInventoryDepleted | product-service/src/main/java/com/neocommercepay/product/event/ProductEventProducer.java:64-75 | exactly one unkeyed message to `inventory.depleted` is appended |
| Stock.AlertFor | product-service/src/main/java/com/neocommercepay/product/service/InventoryService.java:52-54 | a decrement sends at most one alert, and sends one exactly when at most 5 are left available |
| Stock.AlertContents | product-service/src/main/java/com/neocommercepay/product/service/InventoryService.java:53 | the alert goes unkeyed to `inventory.depleted` and reports the product and the count left |
| Stock.Create | product-service/src/main/java/com/neocommercepay/product/service/InventoryService.java:22-32 | a new record with nothing reserved and everything available; a second record for the same product is refused by the unique index and nothing changes; nothing is sent |
| Stock.GetInventory | product-service/src/main/java/com/neocommercepay/product/service/InventoryService.java:34-37 | returns the product's record exactly when it has one, otherwise NotFound |
| Stock.Decrement | product-service/src/main/java/com/neocommercepay/product/service/InventoryService.java:39-57 | unknown product: NotFound, fewer available than requested: Business, both with no change and no alert; otherwise total and available drop by the request (exactly, for a non-negative request; modulo 2^32 in general), reserved untouched, and the alert for the new available count |
| Stock.Increment | product-service/src/main/java/com/neocommercepay/product/service/InventoryService.java:59-68 | unknown product: NotFound and no change; otherwise total and available rise by the request modulo 2^32, reserved untouched; never sends anything |
| Stock.StepsKeepStockInv | scripts/init-mongo.js:11 | every call keeps one record per product stored under its id, with nothing reserved and total equal to available |
| Stock.DecrementNeverNegative | product-service/src/main/java/com/neocommercepay/product/service/InventoryService.java:42-47 | a non-negative request never takes the available count below zero nor above what it was |
| Stock.DecrementKeepsGap | product-service/src/main/java/com/neocommercepay/product/service/InventoryService.java:46-47 | a successful non-negative decrement that does not wrap keeps total minus available |
| Stock.IncrementThenDecrement | product-service/src/main/java/com/neocommercepay/product/service/InventoryService.java:59-63 | adding n and then taking n away gives back the record and the whole collection, when nothing wraps and available is not negative |
| Stock.InventoryService.CreateInventory | product-service/src/main/java/com/neocommercepay/product/service/InventoryService.java:22-31 | the collection and the result are those of `Create`, and the stock invariant still holds |
| Stock.InventoryService.GetInventoryByProductId | product-service/src/main/java/com/neocommercepay/product/service/InventoryService.java:34-36 | returns what `GetInventory` gives on the current collection |
| Stock.InventoryService.DecrementStock | product-service/src/main/java/com/neocommercepay/product/service/InventoryService.java:39-56 | the collection, outbox and result are those of `Decrement`, and the stock invariant still holds |
| Stock.InventoryService.IncrementStock | product-service/src/main/java/com/neocommercepay/product/service/InventoryService.java:59-67 | the collection and result are those of `Increment`, nothing is sent, and the stock invariant still holds |
| StockConsumers.Run | product-service/src/main/java/com/neocommercepay/product/event/OrderCreatedEventConsumer.java:30-32 | the item loop stops at the first failing item, which is the decrement that threw on the state reached, or gets through every item; it only adds to what was sent |
| StockConsumers.Retry | product-service/src/main/java/com/neocommercepay/product/event/OrderCreatedEventConsumer.java:29-34 | the attempts stop at the first whole success or after the last allowed one; a failure means every allowed attempt ran; no allowed attempts means exhausted |
| StockConsumers.OnOrderCreated | product-service/src/main/java/com/neocommercepay/product/event/OrderCreatedEventConsumer.java:24-43 | an unreadable record changes nothing; a readable one runs the attempts over the event's items |
| StockConsumers.RunLowersStock | product-service/src/main/java/com/neocommercepay/product/event/OrderCreatedEventConsumer.java:31 | a run lowers each product's available count by exactly its requests among the items the run got through |
| StockConsumers.PassLowersStock | product-service/src/main/java/com/neocommercepay/product/event/OrderCreatedEventConsumer.java:30-32 | when item k fails, the items before k stay decremented (no rollback) and item k changed nothing; a full run lowers each product by its whole demand |
| StockConsumers.RetryDecrementsTwice | product-service/src/main/java/com/neocommercepay/product/event/OrderCreatedEventConsumer.java:29-34 | after a failure at item k the retry starts again at the first item: once it gets through, the items before k have been decremented twice |
| StockConsumers.RedeliveryDecrementsTwice | product-service/src/main/java/com/neocommercepay/product/event/OrderCreatedEventConsumer.java:26-34 | delivering the same order twice decrements each product by twice its demand: nothing remembers served orders |
| StockConsumers.OrderCreatedEventConsumer.DecrementItems | product-service/src/main/java/com/neocommercepay/product/event/OrderCreatedEventConsumer.java:30-32 | the loop over the items changes the stock and the outbox exactly as `Run` says and reports its failure |
| StockConsumers.OrderCreatedEventConsumer.ConsumeOrderCreated | product-service/src/main/java/com/neocommercepay/product/event/OrderCreatedEventConsumer.java:24-42 | the stock and outbox change as `OnOrderCreated` says, the attempt count and outcome are its own, and the record is acknowledged exactly once |

## Left out

- Timestamps: `lastUpdated`, the event and ledger timestamps and the audit time are not modelled. History rows and payments are stamped with a logical clock.
- `OrderService.getOrdersByUserId` and `getOrdersByStatus` are plain repository queries and are not modelled.
- The catalogue (`ProductService`), the controllers, authentication, the gateway and the user events are not part of this model.
- Null values in `Long`/`Integer` fields and in the product's text fields are not modelled. Only the nullable reasons and the correlation id are.
- The `RetryTemplate` configuration (back-off, exception classification) is not visible. It is modelled as a number of allowed attempts that retry on any exception.
- UUID generation is a parameter: the transaction ids, and one idempotency key per allowed attempt.
- The mock processor's one-second sleep and random draw are replaced by the verdict `approved`.
- Logging, the MDC correlation id (an opaque value), Kafka delivery, partitions and consumer-group rebalancing are left out. JSON parsing is left out: a record arrives already parsed or as `None`.
- `BigDecimal` scale and precision are not modelled. Money is an exact rational.
- `@Transactional` isolation and concurrent consumers are not modelled. Each service call is atomic and calls run one at a time.
- The dead-letter topics are declared but nothing writes to them. The model only states that no listener reads them.
- The per-order and per-payment queries (`findByOrderId`, `findByPaymentId`) are derived queries without an ORDER BY, so the database promises no row order. The model returns the matching rows in table order; that order is one the program does not guarantee, and only which rows are returned is a property of the source.
- Payments.Refund: column lengths are not modelled. The audit entry's details column holds at most 2000 characters, so a refund reason of 1975 or more characters makes the audit insert fail and the transactional refund roll back; the model refunds a COMPLETED payment whatever the reason's length.
- Payments.Initiate: column lengths are not modelled. The idempotency key column has the default length of 255, so a longer key makes the insert fail; the model accepts a key of any length. Only the unique constraints on the order id and the key are enforced.
- Payments.Process: the two audit entries are stated by count and position only. Their action and detail texts are not part of the ensures.
- KafkaTopics.Listens: states only which groups hear `order.created` and `payment.failed`, and that no group hears a dead-letter topic. It does not give the whole topic set.
