/** The product service's listener on `order.created`: every attempt of the
    retry policy decrements the stock of each item in turn, from the first;
    nothing is rolled back between attempts, and the record is acknowledged
    whatever happens. */
module StockConsumers {
  import opened Common
  import opened Events
  import opened Stock

  /** One run of the item loop: the state it leaves, what it sent, the
      exception that stopped it (None when every item went through), and how
      many items it decremented. */
  datatype ItemsPass = ItemsPass(inventory: map<string, Inventory>, emitted: seq<Message>, failure: Option<Failure>, done: nat)

  /** What handling one record did: the state, the messages sent, the last
      attempt's outcome and the number of attempts. */
  datatype StockDelivery = StockDelivery(inventory: map<string, Inventory>, emitted: seq<Message>, result: Result<()>, attempts: nat)

  /** The `forEach` over the event's items from item `i` on, after `sent`
      was already sent: each decrement is saved on its own, and the first
      exception ends the run. */
  function Run(inv: map<string, Inventory>, items: seq<OrderCreatedItem>, i: nat, sent: seq<Message>,
               correlationId: JString): (p: ItemsPass)
    requires i <= |items|
    ensures i <= p.done <= |items|
    ensures p.failure.None? <==> p.done == |items|
    ensures p.failure.Some? ==>
      Decrement(p.inventory, items[p.done].productId, items[p.done].quantity, correlationId).result == Err(p.failure.value)
    ensures sent <= p.emitted
    decreases |items| - i
  {
    if i == |items| then ItemsPass(inv, sent, None, i)
    else
      var step := Decrement(inv, items[i].productId, items[i].quantity, correlationId);
      if step.result.Err? then ItemsPass(inv, sent, Some(step.result.error), i)
      else Run(step.inventory, items, i + 1, sent + step.emitted, correlationId)
  }

  /** One whole run of the item loop. */
  function Pass(inv: map<string, Inventory>, items: seq<OrderCreatedItem>, correlationId: JString): ItemsPass {
    Run(inv, items, 0, [], correlationId)
  }

  function OutcomeOf(p: ItemsPass): (r: Result<()>)
    ensures r.Ok? <==> p.failure.None?
    ensures p.failure.Some? ==> r == Err(p.failure.value)
  {
    match p.failure
    case None => Ok(())
    case Some(f) => Err(f)
  }

  /** The retry policy's attempts from attempt `k` on, out of `maxAttempts`,
      after `sent` was already sent: each runs the whole item loop again on
      the state the previous one left, until one gets through or the last
      allowed one fails. */
  function Retry(inv: map<string, Inventory>, items: seq<OrderCreatedItem>, correlationId: JString,
                 maxAttempts: nat, k: nat, sent: seq<Message>): (d: StockDelivery)
    requires k <= maxAttempts
    ensures d.result == Err(Exhausted) <==> k == maxAttempts
    ensures k < maxAttempts ==> k < d.attempts <= maxAttempts
    ensures d.result.Err? ==> d.attempts == maxAttempts
    ensures sent <= d.emitted
    decreases maxAttempts - k
  {
    if k == maxAttempts then StockDelivery(inv, sent, Err(Exhausted), k)
    else
      var p := Run(inv, items, 0, sent, correlationId);
      if p.failure.None? || k + 1 == maxAttempts then StockDelivery(p.inventory, p.emitted, OutcomeOf(p), k + 1)
      else Retry(p.inventory, items, correlationId, maxAttempts, k + 1, p.emitted)
  }

  /** `consumeOrderCreated` on the stock: the parsed record (None when the
      JSON cannot be read). */
  function OnOrderCreated(inv: map<string, Inventory>, msg: Option<OrderCreatedEvent>, maxAttempts: nat,
                          correlationId: JString): (d: StockDelivery)
    ensures msg.None? ==> d.inventory == inv && d.emitted == [] && d.result == Err(Malformed)
    ensures msg.Some? ==> d == Retry(inv, msg.value.items, correlationId, maxAttempts, 0, [])
  {
    match msg
    case None => StockDelivery(inv, [], Err(Malformed), 0)
    case Some(ev) => Retry(inv, ev.items, correlationId, maxAttempts, 0, [])
  }

  /** What was sent before a run does not change what the run does. */
  lemma {:induction false} RunShift(inv: map<string, Inventory>, items: seq<OrderCreatedItem>, i: nat,
                                    before: seq<Message>, sent: seq<Message>, correlationId: JString)
    requires i <= |items|
    ensures var p := Run(inv, items, i, sent, correlationId);
      Run(inv, items, i, before + sent, correlationId) == p.(emitted := before + p.emitted)
    decreases |items| - i
  {
    if i < |items| {
      var step := Decrement(inv, items[i].productId, items[i].quantity, correlationId);
      if step.result.Ok? {
        SentAssoc(before, sent, step.emitted);
        RunShift(step.inventory, items, i + 1, before, sent + step.emitted, correlationId);
      }
    }
  }

  /** Likewise for the attempts of the retry policy. */
  lemma {:induction false} RetryShift(inv: map<string, Inventory>, items: seq<OrderCreatedItem>, correlationId: JString,
                                      maxAttempts: nat, k: nat, before: seq<Message>, sent: seq<Message>)
    requires k <= maxAttempts
    ensures var d := Retry(inv, items, correlationId, maxAttempts, k, sent);
      Retry(inv, items, correlationId, maxAttempts, k, before + sent) == d.(emitted := before + d.emitted)
    decreases maxAttempts - k
  {
    if k < maxAttempts {
      var p := Run(inv, items, 0, sent, correlationId);
      RunShift(inv, items, 0, before, sent, correlationId);
      if p.failure.Some? && k + 1 < maxAttempts {
        RetryShift(p.inventory, items, correlationId, maxAttempts, k + 1, before, p.emitted);
      }
    }
  }

  // ---------------------------------------------------------------------------
  // What a run does to the stock
  // ---------------------------------------------------------------------------

  /** The total request for one product over the first `j` items. */
  function DemandTo(items: seq<OrderCreatedItem>, j: nat, productId: string): int
    requires j <= |items|
  {
    if j == 0 then 0
    else DemandTo(items, j - 1, productId) + (if items[j - 1].productId == productId then items[j - 1].quantity as int else 0)
  }

  /** The total request for one product over all items. */
  function Demand(items: seq<OrderCreatedItem>, productId: string): int {
    DemandTo(items, |items|, productId)
  }

  /** Requests are not negative. */
  predicate NonNegative(items: seq<OrderCreatedItem>) {
    forall i :: 0 <= i < |items| ==> 0 <= items[i].quantity
  }

  /** A run from item i lowers a product's available count by exactly the
      requests for it among the items the run got through. */
  lemma {:induction false} RunLowersStock(inv: map<string, Inventory>, items: seq<OrderCreatedItem>, i: nat,
                                          sent: seq<Message>, correlationId: JString, productId: string)
    requires i <= |items| && NonNegative(items) && productId in inv
    ensures var p := Run(inv, items, i, sent, correlationId);
      && productId in p.inventory
      && p.inventory[productId].availableQuantity
         == inv[productId].availableQuantity - (DemandTo(items, p.done, productId) - DemandTo(items, i, productId))
    decreases |items| - i
  {
    if i < |items| {
      var step := Decrement(inv, items[i].productId, items[i].quantity, correlationId);
      if step.result.Ok? {
        RunLowersStock(step.inventory, items, i + 1, sent + step.emitted, correlationId, productId);
      }
    }
  }

  /** A run keeps the set of stock records. */
  lemma {:induction false} RunKeepsProducts(inv: map<string, Inventory>, items: seq<OrderCreatedItem>, i: nat,
                                            sent: seq<Message>, correlationId: JString)
    requires i <= |items|
    ensures Run(inv, items, i, sent, correlationId).inventory.Keys == inv.Keys
    decreases |items| - i
  {
    if i < |items| {
      var step := Decrement(inv, items[i].productId, items[i].quantity, correlationId);
      if step.result.Ok? {
        RunKeepsProducts(step.inventory, items, i + 1, sent + step.emitted, correlationId);
      }
    }
  }

  /** A whole run lowers a product's stock by its requests among the items it
      got through: when item k fails, the items before k stay decremented (no
      rollback) and item k changed nothing. */
  lemma PassLowersStock(inv: map<string, Inventory>, items: seq<OrderCreatedItem>, correlationId: JString,
                        productId: string)
    requires NonNegative(items) && productId in inv
    ensures var p := Pass(inv, items, correlationId);
      && productId in p.inventory
      && p.inventory[productId].availableQuantity == inv[productId].availableQuantity - DemandTo(items, p.done, productId)
  {
    RunLowersStock(inv, items, 0, [], correlationId, productId);
  }

  /** A retry after a failure at item k starts again at the first item: the
      items before k are decremented twice once the second attempt gets
      through. */
  lemma RetryDecrementsTwice(inv: map<string, Inventory>, items: seq<OrderCreatedItem>, correlationId: JString,
                             maxAttempts: nat, productId: string)
    requires NonNegative(items) && 2 <= maxAttempts && productId in inv
    requires Pass(inv, items, correlationId).failure.Some?
    requires Pass(Pass(inv, items, correlationId).inventory, items, correlationId).failure.None?
    ensures var d := Retry(inv, items, correlationId, maxAttempts, 0, []);
      var k := Pass(inv, items, correlationId).done;
      && d.result == Ok(()) && d.attempts == 2
      && productId in d.inventory
      && d.inventory[productId].availableQuantity
         == inv[productId].availableQuantity - DemandTo(items, k, productId) - Demand(items, productId)
  {
    var first := Pass(inv, items, correlationId);
    PassLowersStock(inv, items, correlationId, productId);
    PassLowersStock(first.inventory, items, correlationId, productId);
    RunShift(first.inventory, items, 0, first.emitted, [], correlationId);
    assert first.emitted + [] == first.emitted;
  }

  /** Redelivering a record decrements the stock again: nothing remembers
      which orders were already served. */
  lemma RedeliveryDecrementsTwice(inv: map<string, Inventory>, ev: OrderCreatedEvent, correlationId: JString,
                                  maxAttempts: nat, productId: string)
    requires NonNegative(ev.items) && 1 <= maxAttempts && productId in inv
    requires Pass(inv, ev.items, correlationId).failure.None?
    requires Pass(Pass(inv, ev.items, correlationId).inventory, ev.items, correlationId).failure.None?
    ensures var first := OnOrderCreated(inv, Some(ev), maxAttempts, correlationId);
      var again := OnOrderCreated(first.inventory, Some(ev), maxAttempts, correlationId);
      && first.result == Ok(()) && again.result == Ok(())
      && productId in again.inventory
      && again.inventory[productId].availableQuantity == inv[productId].availableQuantity - 2 * Demand(ev.items, productId)
  {
    var first := Pass(inv, ev.items, correlationId);
    PassLowersStock(inv, ev.items, correlationId, productId);
    PassLowersStock(first.inventory, ev.items, correlationId, productId);
  }

  // ---------------------------------------------------------------------------
  // The listener
  // ---------------------------------------------------------------------------

  class OrderCreatedEventConsumer {
    const inventoryService: InventoryService

    constructor (inventoryService: InventoryService)
      ensures this.inventoryService == inventoryService
    {
      this.inventoryService := inventoryService;
    }

    /** One run of the item loop, after what the producer already sent. */
    method DecrementItems(items: seq<OrderCreatedItem>) returns (failure: Option<Failure>)
      requires inventoryService.Valid()
      modifies inventoryService, inventoryService.producer`sent
      ensures inventoryService.Valid()
      ensures var p := Run(old(inventoryService.inventory), items, 0, old(inventoryService.producer.sent),
                           inventoryService.producer.correlationId);
        && inventoryService.inventory == p.inventory
        && inventoryService.producer.sent == p.emitted
        && failure == p.failure
    {
      ghost var p := Run(inventoryService.inventory, items, 0, inventoryService.producer.sent,
                         inventoryService.producer.correlationId);
      failure := None;
      var i := 0;
      while i < |items|
        invariant i <= |items|
        invariant inventoryService.Valid()
        invariant p == Run(inventoryService.inventory, items, i, inventoryService.producer.sent,
                           inventoryService.producer.correlationId)
      {
        var r := inventoryService.DecrementStock(items[i].productId, items[i].quantity);
        if r.Err? {
          failure := Some(r.error);
          return;
        }
        i := i + 1;
      }
    }

    /** `consumeOrderCreated`: `maxAttempts` is the number of attempts the
        retry policy allows. */
    method ConsumeOrderCreated(msg: Option<OrderCreatedEvent>, maxAttempts: nat)
      returns (outcome: Disposition, attempts: nat, acks: nat)
      requires inventoryService.Valid()
      modifies inventoryService, inventoryService.producer`sent
      ensures inventoryService.Valid()
      ensures var d := OnOrderCreated(old(inventoryService.inventory), msg, maxAttempts, inventoryService.producer.correlationId);
        && inventoryService.inventory == d.inventory
        && inventoryService.producer.sent == old(inventoryService.producer.sent) + d.emitted
        && outcome == DispositionOf(d.result) && attempts == d.attempts
      ensures acks == 1
    {
      if msg.None? {
        outcome, attempts, acks := Swallowed(Malformed), 0, 1;
        return;
      }
      var items := msg.value.items;
      ghost var cid := inventoryService.producer.correlationId;
      ghost var sent0 := inventoryService.producer.sent;
      RetryShift(inventoryService.inventory, items, cid, maxAttempts, 0, sent0, []);
      assert sent0 + [] == sent0;
      ghost var d := Retry(inventoryService.inventory, items, cid, maxAttempts, 0, sent0);
      var r: Result<()> := Err(Exhausted);
      attempts := 0;
      while attempts < maxAttempts
        invariant attempts <= maxAttempts
        invariant inventoryService.Valid()
        invariant inventoryService.producer.correlationId == cid
        invariant r.Err?
        invariant d == if attempts == maxAttempts then StockDelivery(inventoryService.inventory, inventoryService.producer.sent, r, attempts)
                       else Retry(inventoryService.inventory, items, cid, maxAttempts, attempts, inventoryService.producer.sent)
      {
        var failure := DecrementItems(items);
        attempts := attempts + 1;
        if failure.None? {
          r := Ok(());
          break;
        }
        r := Err(failure.value);
      }
      outcome := DispositionOf(r);
      acks := 1;
    }
  }
}
