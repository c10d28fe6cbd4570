/** The product service's stock records: one per product, with the total,
    reserved and available counts as Java `Integer`s, and the low-stock
    alert a decrement raises. */
module Stock {
  import opened Common
  import opened KafkaTopics
  import opened Events
  import opened ProductEvents

  /** An `inventory` document; `lastUpdated` is not modelled. */
  datatype Inventory = Inventory(productId: string, quantity: Int32, reservedQuantity: Int32, availableQuantity: Int32)

  /** A decrement that leaves at most this many available raises the alert. */
  const LOW_STOCK: int := 5

  /** The effect of one service call on the collection (keyed by product id,
      which carries a unique index), the messages sent, and the record saved
      or the exception thrown. */
  datatype StockStep = StockStep(inventory: map<string, Inventory>, emitted: seq<Message>, result: Result<Inventory>)

  /** The alert a decrement leaving `available` sends, if any. */
  function AlertFor(productId: string, available: Int32, correlationId: JString): (sent: seq<Message>)
    ensures |sent| <= 1
    ensures |sent| == 1 <==> available <= LOW_STOCK
  {
    if available <= LOW_STOCK then [Unkeyed(INVENTORY_DEPLETED, InventoryDepleted(InventoryDepletedOf(productId, available, correlationId)))]
    else []
  }

  /** The alert goes to `inventory.depleted` without a record key and
      reports the product and the count left. */
  lemma AlertContents(productId: string, available: Int32, correlationId: JString)
    requires available <= LOW_STOCK
    ensures var sent := AlertFor(productId, available, correlationId);
      && sent[0].topic == INVENTORY_DEPLETED && sent[0].key == None
      && sent[0].event.InventoryDepleted?
      && sent[0].event.inventoryDepleted.productId == productId
      && sent[0].event.inventoryDepleted.currentStock == available
  {
  }

  /** `createInventory`: a new record with nothing reserved and everything
      available; the unique index refuses a second record for a product. */
  function Create(inv: map<string, Inventory>, productId: string, quantity: Int32): (step: StockStep)
    ensures step.result.Ok? <==> productId !in inv
    ensures step.result.Err? ==> step.result.error == ConstraintViolation && step.inventory == inv
    ensures step.emitted == []
    ensures step.result.Ok? ==>
      var r := step.result.value;
      && r.productId == productId && r.quantity == quantity
      && r.reservedQuantity == 0 && r.availableQuantity == quantity
      && step.inventory == inv[productId := r]
  {
    if productId in inv then StockStep(inv, [], Err(ConstraintViolation))
    else
      var r := Inventory(productId, quantity, 0, quantity);
      StockStep(inv[productId := r], [], Ok(r))
  }

  /** `getInventoryByProductId`. */
  function GetInventory(inv: map<string, Inventory>, productId: string): (r: Result<Inventory>)
    ensures r.Ok? <==> productId in inv
    ensures r.Ok? ==> r.value == inv[productId]
    ensures r.Err? ==> r.error == NotFound
  {
    if productId in inv then Ok(inv[productId]) else Err(NotFound)
  }

  /** `decrementStock`: refused when fewer are available than asked for;
      otherwise the total and the available count both drop by the request,
      with Java's 32-bit wrap-around, the reserved count is untouched, and the
      alert goes out when at most `LOW_STOCK` are left. The request is not
      checked for sign. */
  function Decrement(inv: map<string, Inventory>, productId: string, quantity: Int32, correlationId: JString): (step: StockStep)
    ensures step.result.Err? ==> step.inventory == inv && step.emitted == []
    ensures productId !in inv ==> step.result == Err(NotFound)
    ensures productId in inv && inv[productId].availableQuantity < quantity ==> step.result == Err(Business)
    ensures step.result.Ok? <==> productId in inv && quantity <= inv[productId].availableQuantity
    ensures step.result.Ok? ==>
      var before := inv[productId];
      var r := step.result.value;
      && r.productId == before.productId
      && r.reservedQuantity == before.reservedQuantity
      && (r.quantity - (before.quantity - quantity)) % TWO_TO_32 == 0
      && (r.availableQuantity - (before.availableQuantity - quantity)) % TWO_TO_32 == 0
      && (0 <= quantity ==> r.availableQuantity == before.availableQuantity - quantity)
      && step.inventory == inv[productId := r]
      && step.emitted == AlertFor(productId, r.availableQuantity, correlationId)
  {
    match GetInventory(inv, productId)
    case Err(e) => StockStep(inv, [], Err(e))
    case Ok(before) =>
      if before.availableQuantity < quantity then StockStep(inv, [], Err(Business))
      else
        var r := before.(quantity := Wrap32(before.quantity - quantity),
                         availableQuantity := Wrap32(before.availableQuantity - quantity));
        StockStep(inv[productId := r], AlertFor(productId, r.availableQuantity, correlationId), Ok(r))
  }

  /** `incrementStock`: the total and the available count both rise by the
      request, with Java's 32-bit wrap-around; nothing is published. */
  function Increment(inv: map<string, Inventory>, productId: string, quantity: Int32): (step: StockStep)
    ensures step.result.Err? ==> step.inventory == inv
    ensures step.emitted == []
    ensures step.result.Ok? <==> productId in inv
    ensures productId !in inv ==> step.result == Err(NotFound)
    ensures step.result.Ok? ==>
      var before := inv[productId];
      var r := step.result.value;
      && r.productId == before.productId
      && r.reservedQuantity == before.reservedQuantity
      && (r.quantity - (before.quantity + quantity)) % TWO_TO_32 == 0
      && (r.availableQuantity - (before.availableQuantity + quantity)) % TWO_TO_32 == 0
      && step.inventory == inv[productId := r]
  {
    match GetInventory(inv, productId)
    case Err(e) => StockStep(inv, [], Err(e))
    case Ok(before) =>
      var r := before.(quantity := Wrap32(before.quantity + quantity),
                       availableQuantity := Wrap32(before.availableQuantity + quantity));
      StockStep(inv[productId := r], [], Ok(r))
  }

  /** Every record is stored under its product, nothing is ever reserved, so
      the total and the available count agree. */
  ghost predicate StockInv(inv: map<string, Inventory>) {
    forall pid :: pid in inv ==>
      inv[pid].productId == pid && inv[pid].reservedQuantity == 0
      && inv[pid].quantity == inv[pid].availableQuantity
  }

  lemma StepsKeepStockInv(inv: map<string, Inventory>, productId: string, quantity: Int32, correlationId: JString)
    requires StockInv(inv)
    ensures StockInv(Create(inv, productId, quantity).inventory)
    ensures StockInv(Decrement(inv, productId, quantity, correlationId).inventory)
    ensures StockInv(Increment(inv, productId, quantity).inventory)
  {
  }

  /** A non-negative request never takes the available count below zero. */
  lemma DecrementNeverNegative(inv: map<string, Inventory>, productId: string, quantity: Int32, correlationId: JString)
    requires 0 <= quantity
    ensures var step := Decrement(inv, productId, quantity, correlationId);
      step.result.Ok? ==> 0 <= step.result.value.availableQuantity <= inv[productId].availableQuantity
  {
  }

  /** A non-negative request that does not wrap the total around keeps the
      difference between the total and the available count. */
  lemma {:induction false} DecrementKeepsGap(inv: map<string, Inventory>, productId: string, quantity: Int32, correlationId: JString)
    requires 0 <= quantity
    requires productId in inv && INT32_MIN <= inv[productId].quantity - quantity
    ensures var step := Decrement(inv, productId, quantity, correlationId);
      step.result.Ok? ==>
        step.result.value.quantity - step.result.value.availableQuantity
        == inv[productId].quantity - inv[productId].availableQuantity
  {
    var step := Decrement(inv, productId, quantity, correlationId);
    if step.result.Ok? {
      assert inv[productId].quantity - quantity <= INT32_MAX;
    }
  }

  /** Adding a quantity and then taking it away again gives back the record
      and the collection, provided nothing wraps around and the available
      count is not negative (otherwise the decrement's check would refuse). */
  lemma {:induction false} IncrementThenDecrement(inv: map<string, Inventory>, productId: string, quantity: Int32,
                                                  correlationId: JString)
    requires productId in inv
    requires 0 <= inv[productId].availableQuantity
    requires inv[productId].availableQuantity + quantity <= INT32_MAX
    requires INT32_MIN <= inv[productId].quantity + quantity <= INT32_MAX
    ensures var up := Increment(inv, productId, quantity);
      var down := Decrement(up.inventory, productId, quantity, correlationId);
      && down.result == Ok(inv[productId])
      && down.inventory == inv
  {
    var before := inv[productId];
    var up := Increment(inv, productId, quantity);
    assert INT32_MIN <= before.availableQuantity + quantity;
    assert up.result.value == before.(quantity := before.quantity + quantity,
                                      availableQuantity := before.availableQuantity + quantity);
    var down := Decrement(up.inventory, productId, quantity, correlationId);
    assert down.result.value == before;
    assert down.inventory == inv[productId := before];
  }

  class InventoryService {
    var inventory: map<string, Inventory>
    const producer: ProductEventProducer

    ghost predicate Valid()
      reads this, producer
    {
      StockInv(inventory) && AllUnkeyed(producer.sent)
    }

    constructor (correlationId: JString)
      ensures Valid() && fresh(producer)
      ensures inventory == map[] && producer.sent == [] && producer.correlationId == correlationId
    {
      inventory := map[];
      producer := new ProductEventProducer(correlationId);
    }

    method CreateInventory(productId: string, quantity: Int32) returns (r: Result<Inventory>)
      requires Valid()
      modifies this
      ensures Valid()
      ensures var step := Create(old(inventory), productId, quantity);
        inventory == step.inventory && r == step.result
    {
      StepsKeepStockInv(inventory, productId, quantity, producer.correlationId);
      if productId in inventory {
        // the unique index on productId refuses the insert
        r := Err(ConstraintViolation);
        return;
      }
      var record := Inventory(productId, quantity, 0, quantity);
      inventory := inventory[productId := record];
      r := Ok(record);
    }

    method GetInventoryByProductId(productId: string) returns (r: Result<Inventory>)
      ensures r == GetInventory(inventory, productId)
    {
      if productId in inventory {
        r := Ok(inventory[productId]);
      } else {
        r := Err(NotFound);
      }
    }

    /** `decrementStock`; returns the saved record, or the exception. */
    method DecrementStock(productId: string, quantity: Int32) returns (r: Result<Inventory>)
      requires Valid()
      modifies this, producer`sent
      ensures Valid()
      ensures var step := Decrement(old(inventory), productId, quantity, producer.correlationId);
        inventory == step.inventory && producer.sent == old(producer.sent) + step.emitted && r == step.result
    {
      StepsKeepStockInv(inventory, productId, quantity, producer.correlationId);
      AllUnkeyedAppend(producer.sent, Decrement(inventory, productId, quantity, producer.correlationId).emitted);
      r := GetInventoryByProductId(productId);
      if r.Err? {
        return;
      }
      var record := r.value;
      if record.availableQuantity < quantity {
        r := Err(Business);
        return;
      }
      record := record.(quantity := Wrap32(record.quantity - quantity),
                        availableQuantity := Wrap32(record.availableQuantity - quantity));
      inventory := inventory[productId := record];
      if record.availableQuantity <= LOW_STOCK {
        producer.PublishInventoryDepleted(productId, record.availableQuantity);
      }
      r := Ok(record);
    }

    /** `incrementStock`; returns the saved record, or the exception. */
    method IncrementStock(productId: string, quantity: Int32) returns (r: Result<Inventory>)
      requires Valid()
      modifies this
      ensures Valid()
      ensures var step := Increment(old(inventory), productId, quantity);
        inventory == step.inventory && r == step.result
    {
      StepsKeepStockInv(inventory, productId, quantity, producer.correlationId);
      r := GetInventoryByProductId(productId);
      if r.Err? {
        return;
      }
      var record := r.value;
      record := record.(quantity := Wrap32(record.quantity + quantity),
                        availableQuantity := Wrap32(record.availableQuantity + quantity));
      inventory := inventory[productId := record];
      r := Ok(record);
    }
  }
}
