/** The topic names shared by all services, and which consumer group listens
    to which topic. */
module KafkaTopics {

  datatype Topic =
    | USER_CREATED | USER_UPDATED | USER_DELETED
    | PRODUCT_CREATED | PRODUCT_UPDATED | PRODUCT_DELETED | INVENTORY_DEPLETED
    | ORDER_CREATED | ORDER_UPDATED | ORDER_CANCELLED
    | PAYMENT_INITIATED | PAYMENT_PROCESSING | PAYMENT_COMPLETED | PAYMENT_FAILED | PAYMENT_REFUNDED
    | ORDER_SERVICE_DLQ | PAYMENT_SERVICE_DLQ | PRODUCT_SERVICE_DLQ

  /** The topic's name on the broker. */
  function Name(t: Topic): string {
    match t
    case USER_CREATED => "user.created"
    case USER_UPDATED => "user.updated"
    case USER_DELETED => "user.deleted"
    case PRODUCT_CREATED => "product.created"
    case PRODUCT_UPDATED => "product.updated"
    case PRODUCT_DELETED => "product.deleted"
    case INVENTORY_DEPLETED => "inventory.depleted"
    case ORDER_CREATED => "order.created"
    case ORDER_UPDATED => "order.updated"
    case ORDER_CANCELLED => "order.cancelled"
    case PAYMENT_INITIATED => "payment.initiated"
    case PAYMENT_PROCESSING => "payment.processing"
    case PAYMENT_COMPLETED => "payment.completed"
    case PAYMENT_FAILED => "payment.failed"
    case PAYMENT_REFUNDED => "payment.refunded"
    case ORDER_SERVICE_DLQ => "order-service-dlq"
    case PAYMENT_SERVICE_DLQ => "payment-service-dlq"
    case PRODUCT_SERVICE_DLQ => "product-service-dlq"
  }

  predicate IsDeadLetter(t: Topic) {
    t == ORDER_SERVICE_DLQ || t == PAYMENT_SERVICE_DLQ || t == PRODUCT_SERVICE_DLQ
  }

  /** The consumer groups of the choreography's listeners. */
  datatype ConsumerGroup = OrderGroup | PaymentGroup | ProductGroup

  /** The topics each group's listeners are registered on. */
  function Listens(g: ConsumerGroup): (r: set<Topic>)
    ensures forall t :: t in r ==> !IsDeadLetter(t)
    ensures PAYMENT_FAILED in r <==> g == OrderGroup
    ensures ORDER_CREATED in r <==> g != OrderGroup
  {
    match g
    case OrderGroup => {PAYMENT_COMPLETED, PAYMENT_FAILED}
    case PaymentGroup => {ORDER_CREATED}
    case ProductGroup => {ORDER_CREATED}
  }
}
