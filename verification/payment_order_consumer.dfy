/** The payment service's listener on `order.created`: each record starts a
    payment for the order, retried by the retry policy with a newly generated
    idempotency key on every attempt, and is acknowledged whatever happens. */
module PaymentConsumers {
  import opened Common
  import opened Events
  import opened PaymentEntities
  import opened Payments

  /** What handling one record did: the new state, the messages sent, the
      last outcome of `initiatePayment` and how many times it was called. */
  datatype Delivery = Delivery(world: PaymentWorld, emitted: seq<Message>, result: Result<Payment>, attempts: nat)

  /** The retry policy's attempts from attempt `i` on. `keys` holds the key
      each attempt generates, one per attempt the policy allows; the policy
      stops at the first success or after the last allowed attempt, and then
      rethrows that attempt's exception. A failed attempt rolls back, so the
      next one starts from the same state. */
  function Attempts(w: PaymentWorld, orderId: int, amount: Decimal, keys: seq<string>,
                    correlationId: JString, i: nat): (d: Delivery)
    requires i <= |keys|
    ensures d.result.Err? ==> d.world == w && d.emitted == []
    ensures d.result == Err(Exhausted) <==> i == |keys|
    ensures i < |keys| ==> i < d.attempts <= |keys|
    ensures d.result.Ok? ==>
      var p := d.result.value;
      && p.orderId == orderId && p.amount == amount && p.status == INITIATED && p.transactionId == None
      && p.idempotencyKey in keys[i..]
      && d.world.store.payments == w.store.payments[p.id := p]
      && d.world.ledger == w.ledger
    decreases |keys| - i
  {
    if i == |keys| then Delivery(w, [], Err(Exhausted), i)
    else
      var step := Initiate(w, orderId, amount, keys[i], correlationId);
      if step.result.Ok? || i + 1 == |keys| then Delivery(step.world, step.emitted, step.result, i + 1)
      else Attempts(w, orderId, amount, keys, correlationId, i + 1)
  }

  /** `consumeOrderCreated` on the payment service's state: the parsed record
      (None when the JSON cannot be read) and the keys of the attempts. */
  function OnOrderCreated(w: PaymentWorld, msg: Option<OrderCreatedEvent>, keys: seq<string>,
                          correlationId: JString): (d: Delivery)
    ensures msg.None? ==> d == Delivery(w, [], Err(Malformed), 0)
    ensures msg.Some? ==> d == Attempts(w, msg.value.orderId, msg.value.totalAmount, keys, correlationId, 0)
  {
    match msg
    case None => Delivery(w, [], Err(Malformed), 0)
    case Some(ev) => Attempts(w, ev.orderId, ev.totalAmount, keys, correlationId, 0)
  }

  /** None of the keys is already stored. */
  ghost predicate FreshKeys(w: PaymentWorld, keys: seq<string>) {
    forall k :: k in keys ==> !KeyTaken(w.store.payments, k)
  }

  /** With generated keys the duplicate-key guard never fires: the only thing
      that can stop the payment is an existing payment for the order, and that
      one fails every attempt the policy allows. */
  lemma {:induction false} FreshKeysDefeatGuard(w: PaymentWorld, orderId: int, amount: Decimal, keys: seq<string>,
                                                correlationId: JString, i: nat)
    requires i <= |keys| && FreshKeys(w, keys)
    ensures var d := Attempts(w, orderId, amount, keys, correlationId, i);
      && d.result != Err(Business)
      && (d.result.Ok? <==> i < |keys| && !OrderTaken(w.store.payments, orderId))
      && (i < |keys| && OrderTaken(w.store.payments, orderId) ==>
            d.result == Err(ConstraintViolation) && d.attempts == |keys|)
    decreases |keys| - i
  {
    if i < |keys| {
      assert keys[i] in keys;
      if i + 1 < |keys| {
        FreshKeysDefeatGuard(w, orderId, amount, keys, correlationId, i + 1);
      }
    }
  }

  /** Redelivering a record that already started a payment starts no second
      one: the unique order column rejects every retry, and nothing changes. */
  lemma RedeliveryRejected(w: PaymentWorld, ev: OrderCreatedEvent, firstKeys: seq<string>,
                           laterKeys: seq<string>, correlationId: JString)
    requires FreshKeys(w, firstKeys) && |firstKeys| > 0 && !OrderTaken(w.store.payments, ev.orderId)
    requires FreshKeys(OnOrderCreated(w, Some(ev), firstKeys, correlationId).world, laterKeys) && |laterKeys| > 0
    ensures OnOrderCreated(w, Some(ev), firstKeys, correlationId).result.Ok?
    ensures var first := OnOrderCreated(w, Some(ev), firstKeys, correlationId);
      var again := OnOrderCreated(first.world, Some(ev), laterKeys, correlationId);
      && again.result == Err(ConstraintViolation)
      && again.world == first.world && again.emitted == []
      && again.attempts == |laterKeys|
  {
    FreshKeysDefeatGuard(w, ev.orderId, ev.totalAmount, firstKeys, correlationId, 0);
    var first := OnOrderCreated(w, Some(ev), firstKeys, correlationId);
    var p := first.result.value;
    assert p.id in first.world.store.payments && first.world.store.payments[p.id].orderId == ev.orderId;
    FreshKeysDefeatGuard(first.world, ev.orderId, ev.totalAmount, laterKeys, correlationId, 0);
  }

  class OrderCreatedEventConsumer {
    const paymentService: PaymentService

    constructor (paymentService: PaymentService)
      ensures this.paymentService == paymentService
    {
      this.paymentService := paymentService;
    }

    /** `consumeOrderCreated`: `keys[k]` is the key attempt k generates, and
        `|keys|` is the number of attempts the retry policy allows. */
    method ConsumeOrderCreated(msg: Option<OrderCreatedEvent>, keys: seq<string>)
      returns (outcome: Disposition, attempts: nat, acks: nat)
      requires paymentService.Valid()
      modifies paymentService, paymentService.auditService, paymentService.producer`sent
      ensures paymentService.Valid()
      ensures var d := OnOrderCreated(old(paymentService.World()), msg, keys, paymentService.producer.correlationId);
        && paymentService.World() == d.world
        && paymentService.producer.sent == old(paymentService.producer.sent) + d.emitted
        && outcome == DispositionOf(d.result) && attempts == d.attempts
      ensures acks == 1
    {
      if msg.None? {
        outcome, attempts, acks := Swallowed(Malformed), 0, 1;
        return;
      }
      var event := msg.value;
      ghost var w := paymentService.World();
      ghost var sent := paymentService.producer.sent;
      ghost var d := Attempts(w, event.orderId, event.totalAmount, keys, paymentService.producer.correlationId, 0);
      var r: Result<Payment> := Err(Exhausted);
      attempts := 0;
      while attempts < |keys|
        invariant attempts <= |keys|
        invariant paymentService.Valid()
        invariant paymentService.World() == w && paymentService.producer.sent == sent
        invariant r.Err?
        invariant d == if attempts == |keys| then Delivery(w, [], r, attempts)
                       else Attempts(w, event.orderId, event.totalAmount, keys, paymentService.producer.correlationId, attempts)
      {
        r := paymentService.InitiatePayment(event.orderId, event.totalAmount, keys[attempts]);
        attempts := attempts + 1;
        if r.Ok? {
          break;
        }
      }
      outcome := DispositionOf(r);
      acks := 1;
    }
  }
}
