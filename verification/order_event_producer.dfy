/** The order service's producer: builds the order events from an order and
    sends each one, without a record key, to its topic. */
module OrderEvents {
  import opened Common
  import opened KafkaTopics
  import opened Events
  import opened OrderEntities

  function ItemLine(item: OrderItem): OrderCreatedItem {
    OrderCreatedItem(item.productId, item.quantity, item.price)
  }

  /** The stream `map` over the order's items. */
  function ItemLines(items: seq<OrderItem>): (lines: seq<OrderCreatedItem>)
    ensures |lines| == |items|
    ensures forall i :: 0 <= i < |items| ==>
      lines[i].productId == items[i].productId
      && lines[i].quantity == items[i].quantity
      && lines[i].price == items[i].price
  {
    if |items| == 0 then [] else [ItemLine(items[0])] + ItemLines(items[1..])
  }

  function OrderCreatedOf(order: Order, correlationId: JString): OrderCreatedEvent {
    OrderCreatedEvent(order.id, order.userId, order.totalAmount, StatusName(order.status),
                      ItemLines(order.items), correlationId)
  }

  function OrderUpdatedOf(order: Order, oldStatus: OrderStatus, newStatus: OrderStatus,
                          correlationId: JString): OrderUpdatedEvent {
    OrderUpdatedEvent(order.id, StatusName(oldStatus), StatusName(newStatus), correlationId)
  }

  function OrderCancelledOf(orderId: int, userId: int, reason: JString,
                            correlationId: JString): OrderCancelledEvent {
    OrderCancelledEvent(orderId, userId, reason, correlationId)
  }

  /** The created event copies the order's id, user, total and status name
      and lists one line per item; the updated event names both statuses and
      the cancelled one carries the reason as given. Distinct statuses have
      distinct names, so a consumer can tell them apart. */
  lemma EventsCopyOrder(order: Order, oldStatus: OrderStatus, newStatus: OrderStatus, reason: JString,
                        correlationId: JString)
    ensures var e := OrderCreatedOf(order, correlationId);
      && e.orderId == order.id && e.userId == order.userId && e.totalAmount == order.totalAmount
      && e.status == StatusName(order.status) && |e.items| == |order.items|
    ensures var e := OrderUpdatedOf(order, oldStatus, newStatus, correlationId);
      e.orderId == order.id && e.oldStatus == StatusName(oldStatus) && e.newStatus == StatusName(newStatus)
    ensures OrderCancelledOf(order.id, order.userId, reason, correlationId).reason == reason
    ensures StatusName(oldStatus) == StatusName(newStatus) <==> oldStatus == newStatus
  {
  }

  class OrderEventProducer {
    /** Everything handed to the transport, oldest first. */
    var sent: seq<Message>
    /** The correlation id of the current request (opaque). */
    var correlationId: JString

    constructor (correlationId: JString)
      ensures sent == [] && this.correlationId == correlationId
    {
      sent := [];
      this.correlationId := correlationId;
    }

    method PublishOrderCreated(order: Order)
      modifies this`sent
      ensures sent == old(sent) + [Unkeyed(ORDER_CREATED, OrderCreated(OrderCreatedOf(order, correlationId)))]
    {
      var event := OrderCreatedOf(order, correlationId);
      sent := sent + [Unkeyed(ORDER_CREATED, OrderCreated(event))];
    }

    method PublishOrderUpdated(order: Order, oldStatus: OrderStatus, newStatus: OrderStatus)
      modifies this`sent
      ensures sent == old(sent)
                   + [Unkeyed(ORDER_UPDATED, OrderUpdated(OrderUpdatedOf(order, oldStatus, newStatus, correlationId)))]
    {
      var event := OrderUpdatedOf(order, oldStatus, newStatus, correlationId);
      sent := sent + [Unkeyed(ORDER_UPDATED, OrderUpdated(event))];
    }

    method PublishOrderCancelled(orderId: int, userId: int, reason: JString)
      modifies this`sent
      ensures sent == old(sent)
                   + [Unkeyed(ORDER_CANCELLED, OrderCancelled(OrderCancelledOf(orderId, userId, reason, correlationId)))]
    {
      var event := OrderCancelledOf(orderId, userId, reason, correlationId);
      sent := sent + [Unkeyed(ORDER_CANCELLED, OrderCancelled(event))];
    }
  }
}
