/** The payment service's records: payments, ledger entries and audit entries,
    and the two unique columns of the payments table. */
module PaymentEntities {
  import opened Common

  datatype PaymentStatus = INITIATED | PROCESSING | COMPLETED | FAILED | REFUNDED

  /** `Enum.name()`. */
  function PaymentStatusName(s: PaymentStatus): string {
    match s
    case INITIATED => "INITIATED"
    case PROCESSING => "PROCESSING"
    case COMPLETED => "COMPLETED"
    case FAILED => "FAILED"
    case REFUNDED => "REFUNDED"
  }

  /** A row of `payments`. `transactionId` is absent until the processor
      approves; `createdAt` is the clock reading taken on insert. */
  datatype Payment = Payment(
    id: int, orderId: int, amount: Decimal, status: PaymentStatus,
    transactionId: Option<string>, idempotencyKey: string, createdAt: nat)

  datatype TransactionType = CHARGE | REFUND | AUTHORIZATION | CAPTURE

  /** A row of the `transactions` ledger (its own id and timestamp are not
      modelled). */
  datatype Transaction = Transaction(
    paymentId: int, transactionType: TransactionType, amount: Decimal, transactionId: string)

  /** A row of the audit log (its own id and timestamp are not modelled). */
  datatype AuditLog = AuditLog(action: string, paymentId: int, details: string)

  /** `findByIdempotencyKey(key).isPresent()`. */
  predicate KeyTaken(payments: map<int, Payment>, key: string) {
    exists id :: id in payments && payments[id].idempotencyKey == key
  }

  /** Some payment already belongs to the order. */
  predicate OrderTaken(payments: map<int, Payment>, orderId: int) {
    exists id :: id in payments && payments[id].orderId == orderId
  }

  /** The unique index on `order_id`. */
  ghost predicate UniqueOrders(payments: map<int, Payment>) {
    forall a, b :: a in payments && b in payments && payments[a].orderId == payments[b].orderId ==> a == b
  }

  /** The unique index on `idempotency_key`. */
  ghost predicate UniqueKeys(payments: map<int, Payment>) {
    forall a, b :: a in payments && b in payments && payments[a].idempotencyKey == payments[b].idempotencyKey ==> a == b
  }
}
