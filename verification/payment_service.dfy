/** The payment aggregate: initiating a payment under an idempotency key,
    processing it through the processor, refunding it, and the ledger, audit
    log and events each step writes. Each call is one database transaction:
    a call that throws leaves everything as it was. */
module Payments {
  import opened Common
  import opened KafkaTopics
  import opened Events
  import opened PaymentEntities
  import opened PaymentEvents
  import opened Ledger
  import opened Audit

  /** The payments table, the next identity value and a logical clock read
      by `@CreationTimestamp`. */
  datatype PaymentStore = PaymentStore(payments: map<int, Payment>, nextId: int, clock: nat)

  /** Everything the payment service writes to: its table, the ledger and the
      audit log. */
  datatype PaymentWorld = PaymentWorld(store: PaymentStore, ledger: seq<Transaction>, audit: seq<AuditLog>)

  /** The effect of one service call: the new state, the messages sent and
      what the call returned or threw. */
  datatype PaymentStep = PaymentStep(world: PaymentWorld, emitted: seq<Message>, result: Result<Payment>)

  const PROCESSOR_DECLINED := "Payment processor declined"

  /** The statuses under which the payment has been charged. */
  predicate Charged(status: PaymentStatus) {
    status == COMPLETED || status == REFUNDED
  }

  /** No call edits what a payment was created with, and the ledger and the
      audit log only grow. */
  ghost predicate Extends(w: PaymentWorld, w': PaymentWorld) {
    && (forall id :: id in w.store.payments ==>
          && id in w'.store.payments
          && w'.store.payments[id].id == w.store.payments[id].id
          && w'.store.payments[id].orderId == w.store.payments[id].orderId
          && w'.store.payments[id].amount == w.store.payments[id].amount
          && w'.store.payments[id].idempotencyKey == w.store.payments[id].idempotencyKey
          && w'.store.payments[id].createdAt == w.store.payments[id].createdAt)
    && w.ledger <= w'.ledger
    && w.audit <= w'.audit
  }

  // ---------------------------------------------------------------------------
  // The service calls as functions of the state
  // ---------------------------------------------------------------------------

  /** `getPaymentById`. */
  function GetPayment(s: PaymentStore, id: int): (r: Result<Payment>)
    ensures r.Ok? <==> id in s.payments
    ensures r.Ok? ==> r.value == s.payments[id]
    ensures r.Err? ==> r.error == NotFound
  {
    if id in s.payments then Ok(s.payments[id]) else Err(NotFound)
  }

  /** `initiatePayment`: refused when the key is known; otherwise one
      INITIATED payment without a transaction id, which the unique order
      column rejects when the order already has a payment. */
  function Initiate(w: PaymentWorld, orderId: int, amount: Decimal, idempotencyKey: string,
                    correlationId: JString): (step: PaymentStep)
    ensures step.result.Err? ==> step.world == w && step.emitted == []
    ensures AllUnkeyed(step.emitted)
    ensures KeyTaken(w.store.payments, idempotencyKey) ==> step.result == Err(Business)
    ensures !KeyTaken(w.store.payments, idempotencyKey) && OrderTaken(w.store.payments, orderId)
      ==> step.result == Err(ConstraintViolation)
    ensures step.result.Ok? <==> !KeyTaken(w.store.payments, idempotencyKey) && !OrderTaken(w.store.payments, orderId)
    ensures step.result.Ok? ==>
      var p := step.result.value;
      && p.id == w.store.nextId && p.orderId == orderId && p.amount == amount && p.status == INITIATED
      && p.transactionId == None && p.idempotencyKey == idempotencyKey
      && step.world.store.payments == w.store.payments[p.id := p]
      && step.world.ledger == w.ledger
      && step.world.audit == w.audit + [AuditLog("PAYMENT_INITIATED", p.id, "Payment initiated for order: " + LongToString(orderId))]
      && step.emitted == [Unkeyed(PAYMENT_INITIATED, PaymentInitiated(InitiatedOf(p, correlationId)))]
  {
    if KeyTaken(w.store.payments, idempotencyKey) then PaymentStep(w, [], Err(Business))
    else if OrderTaken(w.store.payments, orderId) then PaymentStep(w, [], Err(ConstraintViolation))
    else
      var p := Payment(w.store.nextId, orderId, amount, INITIATED, None, idempotencyKey, w.store.clock);
      var store := PaymentStore(w.store.payments[p.id := p], w.store.nextId + 1, w.store.clock + 1);
      var entry := AuditLog("PAYMENT_INITIATED", p.id, "Payment initiated for order: " + LongToString(orderId));
      PaymentStep(PaymentWorld(store, w.ledger, w.audit + [entry]),
                  [Unkeyed(PAYMENT_INITIATED, PaymentInitiated(InitiatedOf(p, correlationId)))],
                  Ok(p))
  }

  /** `processPayment` with the processor's verdict `approved` and the
      transaction id an approval generates. The PROCESSING status is written
      and overwritten inside the one transaction, so it is never left behind. */
  function Process(w: PaymentWorld, id: int, approved: bool, transactionId: string,
                   correlationId: JString): (step: PaymentStep)
    ensures step.result.Err? ==> step.world == w && step.emitted == []
    ensures AllUnkeyed(step.emitted)
    ensures id !in w.store.payments ==> step.result == Err(NotFound)
    ensures id in w.store.payments && w.store.payments[id].status != INITIATED ==> step.result == Err(Business)
    ensures step.result.Ok? <==> id in w.store.payments && w.store.payments[id].status == INITIATED
    ensures step.result.Ok? ==>
      var p := w.store.payments[id];
      var q := step.result.value;
      && q.status == (if approved then COMPLETED else FAILED)
      && q == p.(status := q.status, transactionId := if approved then Some(transactionId) else p.transactionId)
      && step.world.store.payments == w.store.payments[p.id := q]
      && step.world.store.nextId == w.store.nextId
      && step.world.ledger == w.ledger + (if approved then [Transaction(p.id, CHARGE, p.amount, transactionId)] else [])
      && |step.world.audit| == |w.audit| + 2 && step.world.audit[..|w.audit|] == w.audit
      && |step.emitted| == 2
      && step.emitted[0] == Unkeyed(PAYMENT_PROCESSING, PaymentProcessing(ProcessingOf(p.(status := PROCESSING), correlationId)))
      && step.emitted[1] == (if approved then Unkeyed(PAYMENT_COMPLETED, PaymentCompleted(CompletedOf(q, transactionId, correlationId)))
                             else Unkeyed(PAYMENT_FAILED, PaymentFailed(FailedOf(q, Some(PROCESSOR_DECLINED), correlationId))))
  {
    match GetPayment(w.store, id)
    case Err(e) => PaymentStep(w, [], Err(e))
    case Ok(p) =>
      if p.status != INITIATED then PaymentStep(w, [], Err(Business))
      else
        var processing := p.(status := PROCESSING);
        var started := Unkeyed(PAYMENT_PROCESSING, PaymentProcessing(ProcessingOf(processing, correlationId)));
        var audit := w.audit + [AuditLog("PAYMENT_PROCESSING", p.id, "Payment processing started")];
        if approved then
          var done := processing.(status := COMPLETED, transactionId := Some(transactionId));
          PaymentStep(
            PaymentWorld(w.store.(payments := w.store.payments[p.id := done]),
                         w.ledger + [Transaction(p.id, CHARGE, p.amount, transactionId)],
                         audit + [AuditLog("PAYMENT_COMPLETED", p.id, "Payment completed successfully. Transaction ID: " + transactionId)]),
            [started, Unkeyed(PAYMENT_COMPLETED, PaymentCompleted(CompletedOf(done, transactionId, correlationId)))],
            Ok(done))
        else
          var failed := processing.(status := FAILED);
          PaymentStep(
            PaymentWorld(w.store.(payments := w.store.payments[p.id := failed]),
                         w.ledger,
                         audit + [AuditLog("PAYMENT_FAILED", p.id, "Payment processing failed")]),
            [started, Unkeyed(PAYMENT_FAILED, PaymentFailed(FailedOf(failed, Some(PROCESSOR_DECLINED), correlationId)))],
            Ok(failed))
  }

  /** `refundPayment` with the transaction id the refund generates: only a
      COMPLETED payment is refunded, by one REFUND entry of its amount. */
  function Refund(w: PaymentWorld, id: int, reason: JString, refundTransactionId: string,
                  correlationId: JString): (step: PaymentStep)
    ensures step.result.Err? ==> step.world == w && step.emitted == []
    ensures AllUnkeyed(step.emitted)
    ensures id !in w.store.payments ==> step.result == Err(NotFound)
    ensures id in w.store.payments && w.store.payments[id].status != COMPLETED ==> step.result == Err(Business)
    ensures step.result.Ok? <==> id in w.store.payments && w.store.payments[id].status == COMPLETED
    ensures step.result.Ok? ==>
      var p := w.store.payments[id];
      && step.result.value == p.(status := REFUNDED)
      && step.world.store.payments == w.store.payments[p.id := p.(status := REFUNDED)]
      && step.world.store.nextId == w.store.nextId
      && step.world.ledger == w.ledger + [Transaction(p.id, REFUND, p.amount, refundTransactionId)]
      && step.world.audit == w.audit + [AuditLog("PAYMENT_REFUNDED", p.id, Concat("Payment refunded. Reason: ", reason))]
      && step.emitted == [Unkeyed(PAYMENT_REFUNDED, PaymentRefunded(RefundedOf(p.(status := REFUNDED), reason, correlationId)))]
  {
    match GetPayment(w.store, id)
    case Err(e) => PaymentStep(w, [], Err(e))
    case Ok(p) =>
      if p.status != COMPLETED then PaymentStep(w, [], Err(Business))
      else
        var refunded := p.(status := REFUNDED);
        PaymentStep(
          PaymentWorld(w.store.(payments := w.store.payments[p.id := refunded]),
                       w.ledger + [Transaction(p.id, REFUND, p.amount, refundTransactionId)],
                       w.audit + [AuditLog("PAYMENT_REFUNDED", p.id, Concat("Payment refunded. Reason: ", reason))]),
          [Unkeyed(PAYMENT_REFUNDED, PaymentRefunded(RefundedOf(refunded, reason, correlationId)))],
          Ok(refunded))
  }

  // ---------------------------------------------------------------------------
  // The invariant every call keeps
  // ---------------------------------------------------------------------------

  /** Every payment is stored under its own id, below the next identity value,
      and was created in the past; order ids and keys are unique. */
  ghost predicate TableInv(s: PaymentStore) {
    && (forall id :: id in s.payments ==>
          s.payments[id].id == id && id < s.nextId && s.payments[id].createdAt < s.clock)
    && UniqueOrders(s.payments)
    && UniqueKeys(s.payments)
  }

  /** No payment is left PROCESSING, and a payment has a transaction id
      exactly when it has been charged. */
  ghost predicate StatusInv(s: PaymentStore) {
    forall id :: id in s.payments ==>
      s.payments[id].status != PROCESSING
      && (s.payments[id].transactionId.Some? <==> Charged(s.payments[id].status))
  }

  /** Every ledger entry is a charge or a refund of an existing payment for its
      amount, and a charge carries the payment's transaction id. */
  ghost predicate LedgerInv(w: PaymentWorld) {
    forall i :: 0 <= i < |w.ledger| ==>
      var t := w.ledger[i];
      && t.paymentId in w.store.payments
      && t.amount == w.store.payments[t.paymentId].amount
      && (t.transactionType == CHARGE || t.transactionType == REFUND)
      && (t.transactionType == CHARGE ==> w.store.payments[t.paymentId].transactionId == Some(t.transactionId))
  }

  /** A payment is charged once if it was ever approved, and refunded once if
      it was refunded. */
  ghost predicate CountsInv(w: PaymentWorld) {
    forall id :: id in w.store.payments ==>
      && CountOf(w.ledger, id, CHARGE) == (if Charged(w.store.payments[id].status) then 1 else 0)
      && CountOf(w.ledger, id, REFUND) == (if w.store.payments[id].status == REFUNDED then 1 else 0)
  }

  /** Every audit entry is about an existing payment. */
  ghost predicate AuditInv(w: PaymentWorld) {
    forall i :: 0 <= i < |w.audit| ==> w.audit[i].paymentId in w.store.payments
  }

  ghost predicate PaymentInv(w: PaymentWorld) {
    TableInv(w.store) && StatusInv(w.store) && LedgerInv(w) && CountsInv(w) && AuditInv(w)
  }

  /** The empty service satisfies the invariant. */
  lemma EmptyInv()
    ensures PaymentInv(PaymentWorld(PaymentStore(map[], 1, 0), [], []))
  {
  }

  /** The new payment's id is not yet in the ledger. */
  lemma InitiateLedger(w: PaymentWorld, orderId: int, amount: Decimal, idempotencyKey: string, correlationId: JString)
    requires PaymentInv(w)
    ensures var w' := Initiate(w, orderId, amount, idempotencyKey, correlationId).world;
      LedgerInv(w') && CountsInv(w') && AuditInv(w')
  {
    var step := Initiate(w, orderId, amount, idempotencyKey, correlationId);
    if step.result.Ok? {
      var newId := w.store.nextId;
      CountOfAbsent(w.ledger, newId, CHARGE);
      CountOfAbsent(w.ledger, newId, REFUND);
    }
  }

  lemma InitiateTable(w: PaymentWorld, orderId: int, amount: Decimal, idempotencyKey: string, correlationId: JString)
    requires TableInv(w.store) && StatusInv(w.store)
    ensures var w' := Initiate(w, orderId, amount, idempotencyKey, correlationId).world;
      TableInv(w'.store) && StatusInv(w'.store)
  {
  }

  lemma InitiatePreservesInv(w: PaymentWorld, orderId: int, amount: Decimal, idempotencyKey: string, correlationId: JString)
    requires PaymentInv(w)
    ensures PaymentInv(Initiate(w, orderId, amount, idempotencyKey, correlationId).world)
  {
    InitiateTable(w, orderId, amount, idempotencyKey, correlationId);
    InitiateLedger(w, orderId, amount, idempotencyKey, correlationId);
  }

  lemma ProcessTable(w: PaymentWorld, id: int, approved: bool, transactionId: string, correlationId: JString)
    requires TableInv(w.store) && StatusInv(w.store)
    ensures var w' := Process(w, id, approved, transactionId, correlationId).world;
      TableInv(w'.store) && StatusInv(w'.store)
  {
  }

  lemma ProcessLedger(w: PaymentWorld, id: int, approved: bool, transactionId: string, correlationId: JString)
    requires PaymentInv(w)
    ensures var w' := Process(w, id, approved, transactionId, correlationId).world;
      LedgerInv(w') && CountsInv(w') && AuditInv(w')
  {
    var step := Process(w, id, approved, transactionId, correlationId);
    if step.result.Ok? {
      // an INITIATED payment has no ledger entry yet
      CountOfZero(w.ledger, id, CHARGE);
      CountOfZero(w.ledger, id, REFUND);
      if approved {
        var t := Transaction(id, CHARGE, w.store.payments[id].amount, transactionId);
        forall k | k in step.world.store.payments
          ensures CountOf(step.world.ledger, k, CHARGE) == (if Charged(step.world.store.payments[k].status) then 1 else 0)
          ensures CountOf(step.world.ledger, k, REFUND) == (if step.world.store.payments[k].status == REFUNDED then 1 else 0)
        {
          CountOfAppend(w.ledger, t, k, CHARGE);
          CountOfAppend(w.ledger, t, k, REFUND);
        }
      }
    }
  }

  lemma ProcessPreservesInv(w: PaymentWorld, id: int, approved: bool, transactionId: string, correlationId: JString)
    requires PaymentInv(w)
    ensures PaymentInv(Process(w, id, approved, transactionId, correlationId).world)
  {
    ProcessTable(w, id, approved, transactionId, correlationId);
    ProcessLedger(w, id, approved, transactionId, correlationId);
  }

  lemma RefundTable(w: PaymentWorld, id: int, reason: JString, refundTransactionId: string, correlationId: JString)
    requires TableInv(w.store) && StatusInv(w.store)
    ensures var w' := Refund(w, id, reason, refundTransactionId, correlationId).world;
      TableInv(w'.store) && StatusInv(w'.store)
  {
  }

  lemma RefundLedger(w: PaymentWorld, id: int, reason: JString, refundTransactionId: string, correlationId: JString)
    requires PaymentInv(w)
    ensures var w' := Refund(w, id, reason, refundTransactionId, correlationId).world;
      LedgerInv(w') && CountsInv(w') && AuditInv(w')
  {
    var step := Refund(w, id, reason, refundTransactionId, correlationId);
    if step.result.Ok? {
      var t := Transaction(id, REFUND, w.store.payments[id].amount, refundTransactionId);
      forall k | k in step.world.store.payments
        ensures CountOf(step.world.ledger, k, CHARGE) == (if Charged(step.world.store.payments[k].status) then 1 else 0)
        ensures CountOf(step.world.ledger, k, REFUND) == (if step.world.store.payments[k].status == REFUNDED then 1 else 0)
      {
        CountOfAppend(w.ledger, t, k, CHARGE);
        CountOfAppend(w.ledger, t, k, REFUND);
      }
    }
  }

  lemma RefundPreservesInv(w: PaymentWorld, id: int, reason: JString, refundTransactionId: string, correlationId: JString)
    requires PaymentInv(w)
    ensures PaymentInv(Refund(w, id, reason, refundTransactionId, correlationId).world)
  {
    RefundTable(w, id, reason, refundTransactionId, correlationId);
    RefundLedger(w, id, reason, refundTransactionId, correlationId);
  }

  /** Every call only adds to what it found. */
  lemma InitiateExtends(w: PaymentWorld, orderId: int, amount: Decimal, key: string, correlationId: JString)
    requires TableInv(w.store)
    ensures Extends(w, Initiate(w, orderId, amount, key, correlationId).world)
  {
  }

  lemma ProcessExtends(w: PaymentWorld, id: int, approved: bool, transactionId: string, correlationId: JString)
    requires TableInv(w.store)
    ensures Extends(w, Process(w, id, approved, transactionId, correlationId).world)
  {
  }

  lemma RefundExtends(w: PaymentWorld, id: int, reason: JString, refundTransactionId: string, correlationId: JString)
    requires TableInv(w.store)
    ensures Extends(w, Refund(w, id, reason, refundTransactionId, correlationId).world)
  {
  }

  /** What the ledger holds for a payment follows its status: the amount
      while it stands COMPLETED, nothing before approval, after a decline or
      after a refund. */
  lemma {:induction false} BalanceFollowsStatus(w: PaymentWorld, id: int)
    requires PaymentInv(w) && id in w.store.payments
    ensures Balance(w.ledger, id)
         == (if w.store.payments[id].status == COMPLETED then w.store.payments[id].amount else 0.0)
  {
    var p := w.store.payments[id];
    BalanceByCount(w.ledger, id, p.amount);
    assert Times(1, p.amount) == p.amount + Times(0, p.amount);
  }

  // ---------------------------------------------------------------------------
  // The service
  // ---------------------------------------------------------------------------

  class PaymentService {
    var payments: map<int, Payment>
    var nextId: int
    var clock: nat
    const transactionService: TransactionService
    const auditService: AuditService
    const producer: PaymentEventProducer

    function World(): PaymentWorld
      reads this, transactionService, auditService
    {
      PaymentWorld(PaymentStore(payments, nextId, clock), transactionService.ledger, auditService.logs)
    }

    ghost predicate Valid()
      reads this, transactionService, auditService, producer
    {
      PaymentInv(World()) && AllUnkeyed(producer.sent)
    }

    constructor (correlationId: JString)
      ensures Valid() && fresh(transactionService) && fresh(auditService) && fresh(producer)
      ensures World() == PaymentWorld(PaymentStore(map[], 1, 0), [], [])
      ensures producer.sent == [] && producer.correlationId == correlationId
    {
      payments, nextId, clock := map[], 1, 0;
      transactionService := new TransactionService();
      auditService := new AuditService();
      producer := new PaymentEventProducer(correlationId);
      EmptyInv();
    }

    method GetPaymentById(id: int) returns (r: Result<Payment>)
      ensures r == GetPayment(World().store, id)
    {
      if id in payments {
        r := Ok(payments[id]);
      } else {
        r := Err(NotFound);
      }
    }

    /** `findByOrderId`: the order's one payment, if any. */
    method GetPaymentByOrderId(orderId: int) returns (r: Result<Payment>)
      requires Valid()
      ensures r.Ok? <==> OrderTaken(payments, orderId)
      ensures r.Ok? ==> r.value.id in payments && payments[r.value.id] == r.value && r.value.orderId == orderId
      ensures r.Err? ==> r.error == NotFound
    {
      if exists id :: id in payments && payments[id].orderId == orderId {
        var id :| id in payments && payments[id].orderId == orderId;
        r := Ok(payments[id]);
      } else {
        r := Err(NotFound);
      }
    }

    method InitiatePayment(orderId: int, amount: Decimal, idempotencyKey: string) returns (r: Result<Payment>)
      requires Valid()
      modifies this, auditService, producer`sent
      ensures Valid()
      ensures var step := Initiate(old(World()), orderId, amount, idempotencyKey, producer.correlationId);
        World() == step.world && producer.sent == old(producer.sent) + step.emitted && r == step.result
    {
      ghost var w := World();
      ghost var step := Initiate(w, orderId, amount, idempotencyKey, producer.correlationId);
      InitiatePreservesInv(w, orderId, amount, idempotencyKey, producer.correlationId);
      AllUnkeyedAppend(producer.sent, step.emitted);
      if KeyTaken(payments, idempotencyKey) {
        r := Err(Business);
        return;
      }
      if exists id :: id in payments && payments[id].orderId == orderId {
        // the insert violates the unique order column
        r := Err(ConstraintViolation);
        return;
      }
      var payment := Payment(nextId, orderId, amount, INITIATED, None, idempotencyKey, clock);
      payments, nextId, clock := payments[payment.id := payment], nextId + 1, clock + 1;
      auditService.LogAction("PAYMENT_INITIATED", payment.id, "Payment initiated for order: " + LongToString(orderId));
      producer.PublishPaymentInitiated(payment);
      r := Ok(payment);
      assert World() == step.world;
      assert PaymentInv(World());
    }

    method ProcessPayment(paymentId: int, approved: bool, transactionId: string) returns (r: Result<Payment>)
      requires Valid()
      modifies this, transactionService, auditService, producer`sent
      ensures Valid()
      ensures var step := Process(old(World()), paymentId, approved, transactionId, producer.correlationId);
        World() == step.world && producer.sent == old(producer.sent) + step.emitted && r == step.result
    {
      ProcessPreservesInv(World(), paymentId, approved, transactionId, producer.correlationId);
      AllUnkeyedAppend(producer.sent, Process(World(), paymentId, approved, transactionId, producer.correlationId).emitted);
      r := ChargeOrDecline(paymentId, approved, transactionId);
    }

    /** The body of `processPayment`: the status check, the PROCESSING
        write and its event, then the processor's verdict. */
    method ChargeOrDecline(paymentId: int, approved: bool, transactionId: string) returns (r: Result<Payment>)
      modifies this, transactionService, auditService, producer`sent
      ensures var step := Process(old(World()), paymentId, approved, transactionId, producer.correlationId);
        World() == step.world && producer.sent == old(producer.sent) + step.emitted && r == step.result
    {
      r := GetPaymentById(paymentId);
      if r.Err? {
        return;
      }
      var payment := r.value;
      if payment.status != INITIATED {
        r := Err(Business);
        return;
      }
      payment := payment.(status := PROCESSING);
      payments := payments[payment.id := payment];
      producer.PublishPaymentProcessing(payment);
      auditService.LogAction("PAYMENT_PROCESSING", payment.id, "Payment processing started");
      if approved {
        payment := payment.(status := COMPLETED, transactionId := Some(transactionId));
        payments := payments[payment.id := payment];
        var _ := transactionService.LogTransaction(payment.id, CHARGE, payment.amount, transactionId);
        auditService.LogAction("PAYMENT_COMPLETED", payment.id, "Payment completed successfully. Transaction ID: " + transactionId);
        producer.PublishPaymentCompleted(payment, transactionId);
      } else {
        payment := payment.(status := FAILED);
        payments := payments[payment.id := payment];
        auditService.LogAction("PAYMENT_FAILED", payment.id, "Payment processing failed");
        producer.PublishPaymentFailed(payment, Some(PROCESSOR_DECLINED));
      }
      r := Ok(payment);
    }

    method RefundPayment(paymentId: int, reason: JString, refundTransactionId: string) returns (r: Result<Payment>)
      requires Valid()
      modifies this, transactionService, auditService, producer`sent
      ensures Valid()
      ensures var step := Refund(old(World()), paymentId, reason, refundTransactionId, producer.correlationId);
        World() == step.world && producer.sent == old(producer.sent) + step.emitted && r == step.result
    {
      ghost var w := World();
      ghost var step := Refund(w, paymentId, reason, refundTransactionId, producer.correlationId);
      RefundPreservesInv(w, paymentId, reason, refundTransactionId, producer.correlationId);
      AllUnkeyedAppend(producer.sent, step.emitted);
      r := GetPaymentById(paymentId);
      if r.Err? {
        return;
      }
      var payment := r.value;
      if payment.status != COMPLETED {
        r := Err(Business);
        return;
      }
      payment := payment.(status := REFUNDED);
      payments := payments[payment.id := payment];
      var _ := transactionService.LogTransaction(payment.id, REFUND, payment.amount, refundTransactionId);
      auditService.LogAction("PAYMENT_REFUNDED", payment.id, Concat("Payment refunded. Reason: ", reason));
      producer.PublishPaymentRefunded(payment, reason);
      r := Ok(payment);
      assert World() == step.world;
      assert PaymentInv(World());
    }
  }
}
