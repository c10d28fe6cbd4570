/** The order aggregate: creating orders, changing and cancelling their status,
    and the status history that records every change. */
module Orders {
  import opened Common
  import opened KafkaTopics
  import opened Events
  import opened OrderEntities
  import opened OrderEvents

  /** The order service's persistent state: the orders table, the history
      table (in insertion order), the next identity value and a logical clock
      read by `@CreationTimestamp`. */
  datatype OrderStore = OrderStore(
    orders: map<int, Order>, history: seq<OrderStatusHistory>, nextId: int, clock: nat)

  /** The effect of one service call: the new state, the messages sent during
      the call and what the call returned or threw. */
  datatype OrderStep = OrderStep(store: OrderStore, emitted: seq<Message>, result: Result<Order>)

  predicate Fulfilled(status: OrderStatus) {
    status == SHIPPED || status == DELIVERED
  }

  // ---------------------------------------------------------------------------
  // The service calls as functions of the state
  // ---------------------------------------------------------------------------

  /** `createOrder`: a PENDING order with the folded total, its first history
      row (no old status), then one OrderCreated. */
  function Create(s: OrderStore, userId: int, items: seq<OrderItem>, correlationId: JString): (step: OrderStep)
    ensures step.result.Ok?
    ensures step.result.value.id == s.nextId && step.store.nextId == s.nextId + 1
    ensures KeysInv(s) ==> step.result.value.id !in s.orders
    ensures var order := step.result.value;
      && order.status == PENDING && order.userId == userId && order.items == items
      && order.totalAmount == Sum(items)
      && step.store.orders == s.orders[order.id := order]
    ensures |step.store.history| == |s.history| + 1 && step.store.history[..|s.history|] == s.history
    ensures var row := step.store.history[|s.history|];
      row.orderId == step.result.value.id && row.oldStatus == None && row.newStatus == PENDING
    ensures |step.emitted| == 1 && step.emitted[0].topic == ORDER_CREATED
    ensures step.emitted[0].event == OrderCreated(OrderCreatedOf(step.result.value, correlationId))
  {
    var order := Order(s.nextId, userId, TotalAmount(items), PENDING, items);
    var row := OrderStatusHistory(order.id, None, PENDING, s.clock);
    assert (s.history + [row])[..|s.history|] == s.history;
    OrderStep(OrderStore(s.orders[order.id := order], s.history + [row], s.nextId + 1, s.clock + 1),
              [Unkeyed(ORDER_CREATED, OrderCreated(OrderCreatedOf(order, correlationId)))],
              Ok(order))
  }

  /** `getOrderById`. */
  function GetOrder(s: OrderStore, id: int): (r: Result<Order>)
    ensures r.Ok? <==> id in s.orders
    ensures r.Ok? ==> r.value == s.orders[id]
    ensures r.Err? ==> r.error == NotFound
  {
    if id in s.orders then Ok(s.orders[id]) else Err(NotFound)
  }

  /** The state change shared by `updateOrderStatus` and `cancelOrder`: set
      the status and append the row (old status, new status). */
  function Transitioned(s: OrderStore, id: int, newStatus: OrderStatus): OrderStore
    requires id in s.orders
  {
    var order := s.orders[id];
    OrderStore(s.orders[id := order.(status := newStatus)],
               s.history + [OrderStatusHistory(order.id, Some(order.status), newStatus, s.clock)],
               s.nextId, s.clock + 1)
  }

  /** `updateOrderStatus`: any target status is accepted, and a row is
      appended even when the status does not change. */
  function UpdateStatus(s: OrderStore, id: int, newStatus: OrderStatus, correlationId: JString): (step: OrderStep)
    ensures id !in s.orders ==> step == OrderStep(s, [], Err(NotFound))
    ensures id in s.orders ==>
      && step.result == Ok(s.orders[id].(status := newStatus))
      && step.store.orders == s.orders[id := s.orders[id].(status := newStatus)]
      && step.store.history == s.history + [OrderStatusHistory(s.orders[id].id, Some(s.orders[id].status), newStatus, s.clock)]
      && step.store.nextId == s.nextId
      && step.emitted == [Unkeyed(ORDER_UPDATED, OrderUpdated(OrderUpdatedOf(
           s.orders[id].(status := newStatus), s.orders[id].status, newStatus, correlationId)))]
  {
    match GetOrder(s, id)
    case Err(e) => OrderStep(s, [], Err(e))
    case Ok(order) =>
      var updated := order.(status := newStatus);
      OrderStep(Transitioned(s, id, newStatus),
                [Unkeyed(ORDER_UPDATED, OrderUpdated(OrderUpdatedOf(updated, order.status, newStatus, correlationId)))],
                Ok(updated))
  }

  /** `cancelOrder`: refused for a shipped or delivered order; otherwise the
      order becomes CANCELLED (again, if it already was). */
  function Cancel(s: OrderStore, id: int, reason: JString, correlationId: JString): (step: OrderStep)
    ensures id !in s.orders ==> step == OrderStep(s, [], Err(NotFound))
    ensures id in s.orders && Fulfilled(s.orders[id].status) ==> step == OrderStep(s, [], Err(IllegalState))
    ensures id in s.orders && !Fulfilled(s.orders[id].status) ==>
      && step.result == Ok(s.orders[id].(status := CANCELLED))
      && step.store.orders == s.orders[id := s.orders[id].(status := CANCELLED)]
      && step.store.history == s.history + [OrderStatusHistory(s.orders[id].id, Some(s.orders[id].status), CANCELLED, s.clock)]
      && step.store.nextId == s.nextId
      && |step.emitted| == 1 && step.emitted[0].topic == ORDER_CANCELLED
      && step.emitted[0].event
           == OrderCancelled(OrderCancelledOf(s.orders[id].id, s.orders[id].userId, reason, correlationId))
  {
    match GetOrder(s, id)
    case Err(e) => OrderStep(s, [], Err(e))
    case Ok(order) =>
      if Fulfilled(order.status) then OrderStep(s, [], Err(IllegalState))
      else
        OrderStep(Transitioned(s, id, CANCELLED),
                  [Unkeyed(ORDER_CANCELLED, OrderCancelled(OrderCancelledOf(order.id, order.userId, reason, correlationId)))],
                  Ok(order.(status := CANCELLED)))
  }

  // ---------------------------------------------------------------------------
  // The invariant every call keeps
  // ---------------------------------------------------------------------------

  /** The history of one order replays its life: a first row with no old
      status and PENDING, then rows whose old status is the previous row's new
      status. */
  ghost predicate Trail(rows: seq<OrderStatusHistory>) {
    && |rows| > 0
    && rows[0].oldStatus == None && rows[0].newStatus == PENDING
    && forall i, j :: 0 <= i && j == i + 1 && j < |rows| ==> rows[j].oldStatus == Some(rows[i].newStatus)
  }

  /** Every order is stored under its own id, below the next identity value. */
  ghost predicate KeysInv(s: OrderStore) {
    forall id :: id in s.orders ==> s.orders[id].id == id && id < s.nextId
  }

  /** Every stored total is the sum of its order's line amounts. */
  ghost predicate TotalsInv(s: OrderStore) {
    forall id :: id in s.orders ==> s.orders[id].totalAmount == Sum(s.orders[id].items)
  }

  /** Every history row belongs to a stored order; the clock ticks once per
      row, so the rows are in stamping order and the clock is past them all. */
  ghost predicate RowsInv(s: OrderStore) {
    && |s.history| == s.clock
    && forall i :: 0 <= i < |s.history| ==> s.history[i].orderId in s.orders && s.history[i].timestamp == i
  }

  /** The history of order `id` replays its life and ends in its current status. */
  ghost predicate Replays(s: OrderStore, id: int)
    requires id in s.orders
  {
    var rows := HistoryOf(s.history, id);
    Trail(rows) && rows[|rows| - 1].newStatus == s.orders[id].status
  }

  ghost predicate TrailsInv(s: OrderStore) {
    forall id :: id in s.orders ==> Replays(s, id)
  }

  ghost predicate OrderInv(s: OrderStore) {
    KeysInv(s) && TotalsInv(s) && RowsInv(s) && TrailsInv(s)
  }

  lemma TrailAppend(rows: seq<OrderStatusHistory>, e: OrderStatusHistory)
    requires Trail(rows) && e.oldStatus == Some(rows[|rows| - 1].newStatus)
    ensures Trail(rows + [e])
  {
  }

  /** An order none of whose rows is in the history has no history. */
  lemma {:induction false} NoRows(history: seq<OrderStatusHistory>, orderId: int)
    requires forall i :: 0 <= i < |history| ==> history[i].orderId != orderId
    ensures HistoryOf(history, orderId) == []
  {
    if |history| > 0 {
      NoRows(history[1..], orderId);
    }
  }

  /** Appending a row stamped now, for a stored order, keeps the rows in order. */
  lemma AppendRowKeepsRows(s: OrderStore, t: OrderStore, row: OrderStatusHistory)
    requires RowsInv(s)
    requires t.history == s.history + [row] && t.clock == s.clock + 1 && row.timestamp == s.clock
    requires row.orderId in t.orders && s.orders.Keys <= t.orders.Keys
    ensures RowsInv(t)
  {
  }

  /** The store `createOrder` leaves behind, written out. */
  lemma CreateStore(s: OrderStore, userId: int, items: seq<OrderItem>, correlationId: JString)
    ensures var order := Order(s.nextId, userId, TotalAmount(items), PENDING, items);
      Create(s, userId, items, correlationId).store
        == OrderStore(s.orders[s.nextId := order],
                      s.history + [OrderStatusHistory(s.nextId, None, PENDING, s.clock)],
                      s.nextId + 1, s.clock + 1)
  {
  }

  /** The trails after appending `row` for order `id`, whose trail ends in
      the row's old status. */
  lemma AppendRowKeepsTrails(s: OrderStore, t: OrderStore, row: OrderStatusHistory)
    requires TrailsInv(s)
    requires t.history == s.history + [row]
    requires forall k :: k in t.orders && k != row.orderId ==> k in s.orders && t.orders[k].status == s.orders[k].status
    requires row.orderId in t.orders && t.orders[row.orderId].status == row.newStatus
    requires row.orderId in s.orders ==> row.oldStatus == Some(s.orders[row.orderId].status)
    requires row.orderId !in s.orders ==>
      row.oldStatus == None && row.newStatus == PENDING && HistoryOf(s.history, row.orderId) == []
    ensures TrailsInv(t)
  {
    forall k | k in t.orders
      ensures Replays(t, k)
    {
      HistoryOfAppend(s.history, row, k);
      if k != row.orderId {
        assert Replays(s, k);
      } else if k in s.orders {
        assert Replays(s, k);
        TrailAppend(HistoryOf(s.history, k), row);
      }
    }
  }

  lemma CreateKeepsOrders(s: OrderStore, userId: int, items: seq<OrderItem>, correlationId: JString)
    requires KeysInv(s) && TotalsInv(s)
    ensures var t := Create(s, userId, items, correlationId).store;
      KeysInv(t) && TotalsInv(t)
  {
    CreateStore(s, userId, items, correlationId);
  }

  lemma CreateKeepsRows(s: OrderStore, userId: int, items: seq<OrderItem>, correlationId: JString)
    requires RowsInv(s)
    ensures RowsInv(Create(s, userId, items, correlationId).store)
  {
    var row := OrderStatusHistory(s.nextId, None, PENDING, s.clock);
    CreateStore(s, userId, items, correlationId);
    AppendRowKeepsRows(s, Create(s, userId, items, correlationId).store, row);
  }

  lemma CreateKeepsTrails(s: OrderStore, userId: int, items: seq<OrderItem>, correlationId: JString)
    requires KeysInv(s) && RowsInv(s) && TrailsInv(s)
    ensures TrailsInv(Create(s, userId, items, correlationId).store)
  {
    var newId := s.nextId;
    var row := OrderStatusHistory(newId, None, PENDING, s.clock);
    CreateStore(s, userId, items, correlationId);
    NoRows(s.history, newId);
    AppendRowKeepsTrails(s, Create(s, userId, items, correlationId).store, row);
  }

  lemma CreatePreservesInv(s: OrderStore, userId: int, items: seq<OrderItem>, correlationId: JString)
    requires OrderInv(s)
    ensures OrderInv(Create(s, userId, items, correlationId).store)
  {
    CreateKeepsOrders(s, userId, items, correlationId);
    CreateKeepsRows(s, userId, items, correlationId);
    CreateKeepsTrails(s, userId, items, correlationId);
  }

  lemma TransitionKeepsOrders(s: OrderStore, id: int, newStatus: OrderStatus)
    requires KeysInv(s) && TotalsInv(s) && id in s.orders
    ensures var t := Transitioned(s, id, newStatus);
      KeysInv(t) && TotalsInv(t)
  {
  }

  lemma TransitionKeepsRows(s: OrderStore, id: int, newStatus: OrderStatus)
    requires RowsInv(s) && KeysInv(s) && id in s.orders
    ensures RowsInv(Transitioned(s, id, newStatus))
  {
    var t := Transitioned(s, id, newStatus);
    var row := OrderStatusHistory(id, Some(s.orders[id].status), newStatus, s.clock);
    assert t.history == s.history + [row];
    AppendRowKeepsRows(s, t, row);
  }

  lemma TransitionKeepsTrails(s: OrderStore, id: int, newStatus: OrderStatus)
    requires TrailsInv(s) && KeysInv(s) && id in s.orders
    ensures TrailsInv(Transitioned(s, id, newStatus))
  {
    var t := Transitioned(s, id, newStatus);
    var row := OrderStatusHistory(id, Some(s.orders[id].status), newStatus, s.clock);
    assert t.history == s.history + [row];
    AppendRowKeepsTrails(s, t, row);
  }

  lemma TransitionPreservesInv(s: OrderStore, id: int, newStatus: OrderStatus)
    requires OrderInv(s) && id in s.orders
    ensures OrderInv(Transitioned(s, id, newStatus))
  {
    TransitionKeepsOrders(s, id, newStatus);
    TransitionKeepsRows(s, id, newStatus);
    TransitionKeepsTrails(s, id, newStatus);
  }

  lemma UpdatePreservesInv(s: OrderStore, id: int, newStatus: OrderStatus, correlationId: JString)
    requires OrderInv(s)
    ensures OrderInv(UpdateStatus(s, id, newStatus, correlationId).store)
  {
    if id in s.orders {
      TransitionPreservesInv(s, id, newStatus);
    }
  }

  lemma CancelPreservesInv(s: OrderStore, id: int, reason: JString, correlationId: JString)
    requires OrderInv(s)
    ensures OrderInv(Cancel(s, id, reason, correlationId).store)
  {
    if id in s.orders && !Fulfilled(s.orders[id].status) {
      TransitionPreservesInv(s, id, CANCELLED);
    }
  }

  /** A new order's history is exactly its one creation row. */
  lemma CreateStartsHistory(s: OrderStore, userId: int, items: seq<OrderItem>, correlationId: JString)
    requires OrderInv(s)
    ensures var step := Create(s, userId, items, correlationId);
      HistoryOf(step.store.history, step.result.value.id)
        == [OrderStatusHistory(step.result.value.id, None, PENDING, s.clock)]
  {
    var row := OrderStatusHistory(s.nextId, None, PENDING, s.clock);
    CreateStore(s, userId, items, correlationId);
    NoRows(s.history, s.nextId);
    HistoryOfAppend(s.history, row, s.nextId);
  }

  // ---------------------------------------------------------------------------
  // The service
  // ---------------------------------------------------------------------------

  class OrderService {
    var orders: map<int, Order>
    var history: seq<OrderStatusHistory>
    var nextId: int
    var clock: nat
    const producer: OrderEventProducer

    function Store(): OrderStore
      reads this
    {
      OrderStore(orders, history, nextId, clock)
    }

    ghost predicate Valid()
      reads this, producer
    {
      OrderInv(Store()) && AllUnkeyed(producer.sent)
    }

    constructor (correlationId: JString)
      ensures Valid() && fresh(producer)
      ensures Store() == OrderStore(map[], [], 1, 0)
      ensures producer.sent == [] && producer.correlationId == correlationId
    {
      orders, history, nextId, clock := map[], [], 1, 0;
      producer := new OrderEventProducer(correlationId);
    }

    method CreateOrder(userId: int, items: seq<OrderItem>) returns (order: Order)
      requires Valid()
      modifies this, producer`sent
      ensures Valid()
      ensures var step := Create(old(Store()), userId, items, producer.correlationId);
        Store() == step.store && producer.sent == old(producer.sent) + step.emitted && step.result == Ok(order)
    {
      ghost var s := Store();
      ghost var step := Create(s, userId, items, producer.correlationId);
      CreateStore(s, userId, items, producer.correlationId);
      CreatePreservesInv(s, userId, items, producer.correlationId);
      var totalAmount := TotalAmount(items);
      order := Order(nextId, userId, totalAmount, PENDING, items);
      orders := orders[nextId := order];
      nextId := nextId + 1;
      history := history + [OrderStatusHistory(order.id, None, PENDING, clock)];
      clock := clock + 1;
      producer.PublishOrderCreated(order);
      assert Store() == step.store;
    }

    method GetOrderById(id: int) returns (r: Result<Order>)
      ensures r == GetOrder(Store(), id)
    {
      if id in orders {
        r := Ok(orders[id]);
      } else {
        r := Err(NotFound);
      }
    }

    method UpdateOrderStatus(id: int, newStatus: OrderStatus) returns (r: Result<Order>)
      requires Valid()
      modifies this, producer`sent
      ensures Valid()
      ensures var step := UpdateStatus(old(Store()), id, newStatus, producer.correlationId);
        Store() == step.store && producer.sent == old(producer.sent) + step.emitted && r == step.result
    {
      r := GetOrderById(id);
      if r.Err? {
        return;
      }
      var order := r.value;
      var oldStatus := order.status;
      order := order.(status := newStatus);
      orders := orders[id := order];
      history := history + [OrderStatusHistory(order.id, Some(oldStatus), newStatus, clock)];
      clock := clock + 1;
      producer.PublishOrderUpdated(order, oldStatus, newStatus);
      r := Ok(order);
      TransitionPreservesInv(old(Store()), id, newStatus);
      assert OrderInv(Store());
    }

    method CancelOrder(id: int, reason: JString) returns (r: Result<Order>)
      requires Valid()
      modifies this, producer`sent
      ensures Valid()
      ensures var step := Cancel(old(Store()), id, reason, producer.correlationId);
        Store() == step.store && producer.sent == old(producer.sent) + step.emitted && r == step.result
    {
      r := GetOrderById(id);
      if r.Err? {
        return;
      }
      var order := r.value;
      if order.status == SHIPPED || order.status == DELIVERED {
        r := Err(IllegalState);
        return;
      }
      var oldStatus := order.status;
      order := order.(status := CANCELLED);
      orders := orders[id := order];
      history := history + [OrderStatusHistory(order.id, Some(oldStatus), CANCELLED, clock)];
      clock := clock + 1;
      producer.PublishOrderCancelled(order.id, order.userId, reason);
      r := Ok(order);
      TransitionPreservesInv(old(Store()), id, CANCELLED);
      assert OrderInv(Store());
    }

    method GetOrderHistory(orderId: int) returns (rows: seq<OrderStatusHistory>)
      ensures rows == HistoryOf(history, orderId)
    {
      rows := HistoryOf(history, orderId);
    }
  }
}
