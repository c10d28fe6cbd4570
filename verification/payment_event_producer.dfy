/** The payment service's producer: one event per payment step, each copying
    the payment's id, order id and amount, sent without a record key. */
module PaymentEvents {
  import opened Common
  import opened KafkaTopics
  import opened Events
  import opened PaymentEntities

  function InitiatedOf(p: Payment, correlationId: JString): PaymentInitiatedEvent {
    PaymentInitiatedEvent(p.id, p.orderId, p.amount, PaymentStatusName(p.status), correlationId)
  }

  function ProcessingOf(p: Payment, correlationId: JString): PaymentProcessingEvent {
    PaymentProcessingEvent(p.id, p.orderId, p.amount, correlationId)
  }

  function CompletedOf(p: Payment, transactionId: string, correlationId: JString): PaymentCompletedEvent {
    PaymentCompletedEvent(p.id, p.orderId, p.amount, transactionId, correlationId)
  }

  function FailedOf(p: Payment, reason: JString, correlationId: JString): PaymentFailedEvent {
    PaymentFailedEvent(p.id, p.orderId, p.amount, reason, correlationId)
  }

  function RefundedOf(p: Payment, reason: JString, correlationId: JString): PaymentRefundedEvent {
    PaymentRefundedEvent(p.id, p.orderId, p.amount, reason, correlationId)
  }

  /** The payment a payment event is about, as (paymentId, orderId, amount). */
  function Subject(e: Event): (r: Option<(int, int, Decimal)>)
    ensures r.Some? <==> e.PaymentInitiated? || e.PaymentProcessing? || e.PaymentCompleted?
                         || e.PaymentFailed? || e.PaymentRefunded?
  {
    match e
    case PaymentInitiated(x) => Some((x.paymentId, x.orderId, x.amount))
    case PaymentProcessing(x) => Some((x.paymentId, x.orderId, x.amount))
    case PaymentCompleted(x) => Some((x.paymentId, x.orderId, x.amount))
    case PaymentFailed(x) => Some((x.paymentId, x.orderId, x.amount))
    case PaymentRefunded(x) => Some((x.paymentId, x.orderId, x.amount))
    case _ => None
  }

  /** Every payment event names the payment it was built from; the initiated
      event carries the status name, the completed one the transaction id and
      the failed and refunded ones the reason, each as given. */
  lemma EventsCopyPayment(p: Payment, transactionId: string, reason: JString, correlationId: JString)
    ensures Subject(PaymentInitiated(InitiatedOf(p, correlationId))) == Some((p.id, p.orderId, p.amount))
    ensures Subject(PaymentProcessing(ProcessingOf(p, correlationId))) == Some((p.id, p.orderId, p.amount))
    ensures Subject(PaymentCompleted(CompletedOf(p, transactionId, correlationId))) == Some((p.id, p.orderId, p.amount))
    ensures Subject(PaymentFailed(FailedOf(p, reason, correlationId))) == Some((p.id, p.orderId, p.amount))
    ensures Subject(PaymentRefunded(RefundedOf(p, reason, correlationId))) == Some((p.id, p.orderId, p.amount))
    ensures InitiatedOf(p, correlationId).status == PaymentStatusName(p.status)
    ensures CompletedOf(p, transactionId, correlationId).transactionId == transactionId
    ensures FailedOf(p, reason, correlationId).reason == reason
    ensures RefundedOf(p, reason, correlationId).reason == reason
  {
  }

  class PaymentEventProducer {
    /** Everything handed to the transport, oldest first. */
    var sent: seq<Message>
    /** The correlation id of the current request (opaque). */
    var correlationId: JString

    constructor (correlationId: JString)
      ensures sent == [] && this.correlationId == correlationId
    {
      sent := [];
      this.correlationId := correlationId;
    }

    method PublishPaymentInitiated(payment: Payment)
      modifies this`sent
      ensures sent == old(sent) + [Unkeyed(PAYMENT_INITIATED, PaymentInitiated(InitiatedOf(payment, correlationId)))]
    {
      var event := InitiatedOf(payment, correlationId);
      sent := sent + [Unkeyed(PAYMENT_INITIATED, PaymentInitiated(event))];
    }

    method PublishPaymentProcessing(payment: Payment)
      modifies this`sent
      ensures sent == old(sent) + [Unkeyed(PAYMENT_PROCESSING, PaymentProcessing(ProcessingOf(payment, correlationId)))]
    {
      var event := ProcessingOf(payment, correlationId);
      sent := sent + [Unkeyed(PAYMENT_PROCESSING, PaymentProcessing(event))];
    }

    method PublishPaymentCompleted(payment: Payment, transactionId: string)
      modifies this`sent
      ensures sent == old(sent)
                   + [Unkeyed(PAYMENT_COMPLETED, PaymentCompleted(CompletedOf(payment, transactionId, correlationId)))]
    {
      var event := CompletedOf(payment, transactionId, correlationId);
      sent := sent + [Unkeyed(PAYMENT_COMPLETED, PaymentCompleted(event))];
    }

    method PublishPaymentFailed(payment: Payment, reason: JString)
      modifies this`sent
      ensures sent == old(sent) + [Unkeyed(PAYMENT_FAILED, PaymentFailed(FailedOf(payment, reason, correlationId)))]
    {
      var event := FailedOf(payment, reason, correlationId);
      sent := sent + [Unkeyed(PAYMENT_FAILED, PaymentFailed(event))];
    }

    method PublishPaymentRefunded(payment: Payment, reason: JString)
      modifies this`sent
      ensures sent == old(sent) + [Unkeyed(PAYMENT_REFUNDED, PaymentRefunded(RefundedOf(payment, reason, correlationId)))]
    {
      var event := RefundedOf(payment, reason, correlationId);
      sent := sent + [Unkeyed(PAYMENT_REFUNDED, PaymentRefunded(event))];
    }
  }
}
