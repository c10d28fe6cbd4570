/** The event records the services exchange, and the message a producer hands
    to the transport. Timestamps are not modelled; the correlation id is an
    opaque, possibly null, string. */
module Events {
  import opened Common
  import opened KafkaTopics

  datatype OrderCreatedItem = OrderCreatedItem(productId: string, quantity: Int32, price: Decimal)

  datatype OrderCreatedEvent = OrderCreatedEvent(
    orderId: int, userId: int, totalAmount: Decimal, status: string,
    items: seq<OrderCreatedItem>, correlationId: JString)

  datatype OrderUpdatedEvent = OrderUpdatedEvent(
    orderId: int, oldStatus: string, newStatus: string, correlationId: JString)

  datatype OrderCancelledEvent = OrderCancelledEvent(
    orderId: int, userId: int, reason: JString, correlationId: JString)

  datatype PaymentInitiatedEvent = PaymentInitiatedEvent(
    paymentId: int, orderId: int, amount: Decimal, status: string, correlationId: JString)

  datatype PaymentProcessingEvent = PaymentProcessingEvent(
    paymentId: int, orderId: int, amount: Decimal, correlationId: JString)

  datatype PaymentCompletedEvent = PaymentCompletedEvent(
    paymentId: int, orderId: int, amount: Decimal, transactionId: string, correlationId: JString)

  datatype PaymentFailedEvent = PaymentFailedEvent(
    paymentId: int, orderId: int, amount: Decimal, reason: JString, correlationId: JString)

  datatype PaymentRefundedEvent = PaymentRefundedEvent(
    paymentId: int, orderId: int, amount: Decimal, reason: JString, correlationId: JString)

  datatype InventoryDepletedEvent = InventoryDepletedEvent(
    productId: string, productName: string, currentStock: Int32, correlationId: JString)

  /** The created and updated product events have the same fields. */
  datatype ProductEvent = ProductEvent(
    productId: string, name: string, description: string, price: Decimal,
    category: string, stockQuantity: Int32, correlationId: JString)

  datatype ProductDeletedEvent = ProductDeletedEvent(productId: string, correlationId: JString)

  datatype Event =
    | OrderCreated(orderCreated: OrderCreatedEvent)
    | OrderUpdated(orderUpdated: OrderUpdatedEvent)
    | OrderCancelled(orderCancelled: OrderCancelledEvent)
    | PaymentInitiated(paymentInitiated: PaymentInitiatedEvent)
    | PaymentProcessing(paymentProcessing: PaymentProcessingEvent)
    | PaymentCompleted(paymentCompleted: PaymentCompletedEvent)
    | PaymentFailed(paymentFailed: PaymentFailedEvent)
    | PaymentRefunded(paymentRefunded: PaymentRefundedEvent)
    | InventoryDepleted(inventoryDepleted: InventoryDepletedEvent)
    | ProductCreated(productCreated: ProductEvent)
    | ProductUpdated(productUpdated: ProductEvent)
    | ProductDeleted(productDeleted: ProductDeletedEvent)

  /** One `KafkaTemplate.send`: a topic, the record key (None when the
      two-argument `send(topic, value)` is used) and the value. */
  datatype Message = Message(topic: Topic, key: Option<string>, event: Event)

  /** A send without a record key. */
  function Unkeyed(topic: Topic, event: Event): Message {
    Message(topic, None, event)
  }

  predicate AllUnkeyed(sent: seq<Message>) {
    forall i :: 0 <= i < |sent| ==> sent[i].key == None
  }

  lemma SentAssoc(a: seq<Message>, b: seq<Message>, c: seq<Message>)
    ensures (a + b) + c == a + (b + c)
  {
  }

  lemma AllUnkeyedAppend(sent: seq<Message>, more: seq<Message>)
    requires AllUnkeyed(sent) && AllUnkeyed(more)
    ensures AllUnkeyed(sent + more)
  {
  }
}
