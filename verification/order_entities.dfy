/** The order service's records: orders, their line items, the status history
    rows, the order total and the history query. */
module OrderEntities {
  import opened Common

  datatype OrderStatus = PENDING | PAID | CANCELLED | SHIPPED | DELIVERED

  /** `Enum.name()`. */
  function StatusName(s: OrderStatus): string {
    match s
    case PENDING => "PENDING"
    case PAID => "PAID"
    case CANCELLED => "CANCELLED"
    case SHIPPED => "SHIPPED"
    case DELIVERED => "DELIVERED"
  }

  datatype OrderItem = OrderItem(productId: string, quantity: Int32, price: Decimal)

  /** The store assigns `id`; the items are never changed after creation. */
  datatype Order = Order(id: int, userId: int, totalAmount: Decimal, status: OrderStatus, items: seq<OrderItem>)

  /** One row of `order_status_history`: the order id and the new status are
      required, the old status is absent on the first row of an order, and
      `timestamp` is the clock reading taken when the row is inserted. */
  datatype OrderStatusHistory = OrderStatusHistory(
    orderId: int, oldStatus: Option<OrderStatus>, newStatus: OrderStatus, timestamp: nat)

  /** `price * BigDecimal.valueOf(quantity)`. */
  function LineAmount(item: OrderItem): Decimal {
    item.price * (item.quantity as real)
  }

  /** Reference definition of the order total: the sum of the line amounts. */
  function Sum(items: seq<OrderItem>): Decimal {
    if |items| == 0 then 0.0 else LineAmount(items[0]) + Sum(items[1..])
  }

  /** The stream's `reduce(acc, BigDecimal::add)` over the line amounts: a
      left fold from the accumulator. */
  function Reduce(acc: Decimal, items: seq<OrderItem>): Decimal
    decreases |items|
  {
    if |items| == 0 then acc else Reduce(acc + LineAmount(items[0]), items[1..])
  }

  lemma {:induction false} ReduceIsSum(acc: Decimal, items: seq<OrderItem>)
    ensures Reduce(acc, items) == acc + Sum(items)
    decreases |items|
  {
    if |items| > 0 {
      ReduceIsSum(acc + LineAmount(items[0]), items[1..]);
    }
  }

  /** The total `createOrder` stores: the left fold starting at zero. */
  function TotalAmount(items: seq<OrderItem>): (total: Decimal)
    ensures total == Sum(items)
    ensures items == [] ==> total == 0.0
  {
    ReduceIsSum(0.0, items);
    Reduce(0.0, items)
  }

  lemma {:induction false} SumAppend(a: seq<OrderItem>, b: seq<OrderItem>)
    ensures Sum(a + b) == Sum(a) + Sum(b)
  {
    if |a| == 0 {
      assert a + b == b;
    } else {
      assert (a + b)[1..] == a[1..] + b;
      SumAppend(a[1..], b);
    }
  }

  /** Splitting an order's items splits its total. */
  lemma TotalAmountAppend(a: seq<OrderItem>, b: seq<OrderItem>)
    ensures TotalAmount(a + b) == TotalAmount(a) + TotalAmount(b)
  {
    SumAppend(a, b);
  }

  /** `findByOrderId`: the rows of one order, in table order (the query itself promises no order). */
  function HistoryOf(history: seq<OrderStatusHistory>, orderId: int): (rows: seq<OrderStatusHistory>)
    ensures |rows| <= |history|
  {
    if |history| == 0 then []
    else (if history[0].orderId == orderId then [history[0]] else []) + HistoryOf(history[1..], orderId)
  }

  /** The rows of an order are exactly the rows that carry its id. */
  lemma {:induction false} HistoryOfMembers(history: seq<OrderStatusHistory>, orderId: int)
    ensures forall e :: e in HistoryOf(history, orderId) <==> e in history && e.orderId == orderId
  {
    if |history| > 0 {
      HistoryOfMembers(history[1..], orderId);
      assert history == [history[0]] + history[1..];
    }
  }

  /** Appending a row adds it to its own order's history and to no other. */
  lemma {:induction false} HistoryOfAppend(history: seq<OrderStatusHistory>, e: OrderStatusHistory, orderId: int)
    ensures HistoryOf(history + [e], orderId)
         == HistoryOf(history, orderId) + (if e.orderId == orderId then [e] else [])
  {
    if |history| == 0 {
      assert history + [e] == [e];
    } else {
      var head := if history[0].orderId == orderId then [history[0]] else [];
      var last := if e.orderId == orderId then [e] else [];
      assert (history + [e])[0] == history[0];
      assert (history + [e])[1..] == history[1..] + [e];
      HistoryOfAppend(history[1..], e, orderId);
      calc {
        HistoryOf(history + [e], orderId);
        head + HistoryOf(history[1..] + [e], orderId);
        head + (HistoryOf(history[1..], orderId) + last);
        (head + HistoryOf(history[1..], orderId)) + last;
      }
    }
  }
}
