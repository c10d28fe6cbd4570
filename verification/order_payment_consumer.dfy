/** The order service's listener for payment outcomes: a completed payment
    marks the order PAID, a failed one cancels it. Every record is
    acknowledged exactly once and no exception leaves the listener, so a record
    that fails is dropped rather than redelivered. */
module OrderConsumers {
  import opened Common
  import opened KafkaTopics
  import opened Events
  import opened OrderEntities
  import opened OrderEvents
  import opened Orders

  /** The prefix the listener puts before the payment's failure reason. */
  const FAILED_PREFIX := "Payment failed: "

  /** `consumePaymentCompleted` on the order store: the parsed record (None
      when the JSON cannot be read) drives `updateOrderStatus(orderId, PAID)`. */
  function OnPaymentCompleted(s: OrderStore, msg: Option<PaymentCompletedEvent>, correlationId: JString): (step: OrderStep)
    ensures step.result.Ok? <==> msg.Some? && msg.value.orderId in s.orders
    ensures step.result.Err? ==> step.store == s && step.emitted == []
    ensures msg.None? ==> step.result == Err(Malformed)
    ensures msg.Some? && msg.value.orderId !in s.orders ==> step.result == Err(NotFound)
    ensures step.result.Ok? ==>
      var id := msg.value.orderId;
      && step.result == Ok(s.orders[id].(status := PAID))
      && step.store.orders == s.orders[id := s.orders[id].(status := PAID)]
      && step.store.history == s.history + [OrderStatusHistory(s.orders[id].id, Some(s.orders[id].status), PAID, s.clock)]
      && step.emitted == [Unkeyed(ORDER_UPDATED, OrderUpdated(OrderUpdatedOf(s.orders[id].(status := PAID), s.orders[id].status, PAID, correlationId)))]
  {
    match msg
    case None => OrderStep(s, [], Err(Malformed))
    case Some(event) => UpdateStatus(s, event.orderId, PAID, correlationId)
  }

  /** The cancellation reason the listener passes on. */
  function FailureReason(event: PaymentFailedEvent): (reason: string)
    ensures |reason| >= |FAILED_PREFIX| && reason[..|FAILED_PREFIX|] == FAILED_PREFIX
    ensures event.reason.Some? ==> reason[|FAILED_PREFIX|..] == event.reason.value
    ensures event.reason.None? ==> reason[|FAILED_PREFIX|..] == "null"
  {
    Concat(FAILED_PREFIX, event.reason)
  }

  /** `consumePaymentFailed` on the order store: the parsed record drives
      `cancelOrder(orderId, "Payment failed: " + reason)`. */
  function OnPaymentFailed(s: OrderStore, msg: Option<PaymentFailedEvent>, correlationId: JString): (step: OrderStep)
    ensures step.result.Ok? <==> msg.Some? && msg.value.orderId in s.orders && !Fulfilled(s.orders[msg.value.orderId].status)
    ensures step.result.Err? ==> step.store == s && step.emitted == []
    ensures msg.None? ==> step.result == Err(Malformed)
    ensures msg.Some? && msg.value.orderId in s.orders && Fulfilled(s.orders[msg.value.orderId].status)
      ==> step.result == Err(IllegalState)
    ensures msg.Some? && msg.value.orderId !in s.orders ==> step.result == Err(NotFound)
    ensures step.result.Ok? ==>
      var id := msg.value.orderId;
      && step.result == Ok(s.orders[id].(status := CANCELLED))
      && step.store.orders == s.orders[id := s.orders[id].(status := CANCELLED)]
      && step.store.history == s.history + [OrderStatusHistory(s.orders[id].id, Some(s.orders[id].status), CANCELLED, s.clock)]
      && step.emitted == [Unkeyed(ORDER_CANCELLED, OrderCancelled(OrderCancelledOf(
           s.orders[id].id, s.orders[id].userId, Some(FailureReason(msg.value)), correlationId)))]
  {
    match msg
    case None => OrderStep(s, [], Err(Malformed))
    case Some(event) => Cancel(s, event.orderId, Some(FailureReason(event)), correlationId)
  }

  /** Both listeners keep the order invariant, whatever arrives. */
  lemma ListenersPreserveInv(s: OrderStore, completed: Option<PaymentCompletedEvent>,
                             failed: Option<PaymentFailedEvent>, correlationId: JString)
    requires OrderInv(s)
    ensures OrderInv(OnPaymentCompleted(s, completed, correlationId).store)
    ensures OrderInv(OnPaymentFailed(s, failed, correlationId).store)
  {
    if completed.Some? {
      UpdatePreservesInv(s, completed.value.orderId, PAID, correlationId);
    }
    if failed.Some? {
      CancelPreservesInv(s, failed.value.orderId, Some(FailureReason(failed.value)), correlationId);
    }
  }

  /** A PaymentCompleted delivered twice for an existing order leaves it PAID
      but records two transitions, the second from PAID to PAID, and
      announces both. */
  lemma {:induction false} CompletedRedelivered(s: OrderStore, event: PaymentCompletedEvent, correlationId: JString)
    requires OrderInv(s) && event.orderId in s.orders
    ensures var first := OnPaymentCompleted(s, Some(event), correlationId);
      var second := OnPaymentCompleted(first.store, Some(event), correlationId);
      var id := event.orderId;
      && second.result.Ok? && second.store.orders[id].status == PAID
      && HistoryOf(second.store.history, id)
         == HistoryOf(s.history, id)
            + [OrderStatusHistory(id, Some(s.orders[id].status), PAID, s.clock),
               OrderStatusHistory(id, Some(PAID), PAID, s.clock + 1)]
      && |first.emitted + second.emitted| == 2
  {
    var id := event.orderId;
    var first := OnPaymentCompleted(s, Some(event), correlationId);
    var row1 := OrderStatusHistory(id, Some(s.orders[id].status), PAID, s.clock);
    var row2 := OrderStatusHistory(id, Some(PAID), PAID, s.clock + 1);
    assert first.store.clock == s.clock + 1;
    HistoryOfAppend(s.history, row1, id);
    HistoryOfAppend(s.history + [row1], row2, id);
  }

  /** A PaymentFailed for a shipped or delivered order changes nothing, and
      the record is still acknowledged by the listener. */
  lemma FailedAfterFulfilment(s: OrderStore, event: PaymentFailedEvent, correlationId: JString)
    requires event.orderId in s.orders && Fulfilled(s.orders[event.orderId].status)
    ensures var step := OnPaymentFailed(s, Some(event), correlationId);
      step.store == s && step.emitted == [] && DispositionOf(step.result) == Swallowed(IllegalState)
  {
  }

  class PaymentEventConsumer {
    const orderService: OrderService

    constructor (orderService: OrderService)
      ensures this.orderService == orderService
    {
      this.orderService := orderService;
    }

    /** Returns how the listener ended and how many times it acknowledged. */
    method ConsumePaymentCompleted(msg: Option<PaymentCompletedEvent>) returns (outcome: Disposition, acks: nat)
      requires orderService.Valid()
      modifies orderService, orderService.producer`sent
      ensures orderService.Valid()
      ensures var step := OnPaymentCompleted(old(orderService.Store()), msg, orderService.producer.correlationId);
        && orderService.Store() == step.store
        && orderService.producer.sent == old(orderService.producer.sent) + step.emitted
        && outcome == DispositionOf(step.result)
      ensures acks == 1
    {
      acks := 0;
      if msg.None? {
        outcome := Swallowed(Malformed);
        acks := acks + 1;
        return;
      }
      var r := orderService.UpdateOrderStatus(msg.value.orderId, PAID);
      if r.Ok? {
        acks := acks + 1;
        outcome := Processed;
      } else {
        outcome := Swallowed(r.error);
        acks := acks + 1;
      }
    }

    /** Returns how the listener ended and how many times it acknowledged. */
    method ConsumePaymentFailed(msg: Option<PaymentFailedEvent>) returns (outcome: Disposition, acks: nat)
      requires orderService.Valid()
      modifies orderService, orderService.producer`sent
      ensures orderService.Valid()
      ensures var step := OnPaymentFailed(old(orderService.Store()), msg, orderService.producer.correlationId);
        && orderService.Store() == step.store
        && orderService.producer.sent == old(orderService.producer.sent) + step.emitted
        && outcome == DispositionOf(step.result)
      ensures acks == 1
    {
      acks := 0;
      if msg.None? {
        outcome := Swallowed(Malformed);
        acks := acks + 1;
        return;
      }
      var r := orderService.CancelOrder(msg.value.orderId, Some(FailureReason(msg.value)));
      if r.Ok? {
        acks := acks + 1;
        outcome := Processed;
      } else {
        outcome := Swallowed(r.error);
        acks := acks + 1;
      }
    }
  }
}
