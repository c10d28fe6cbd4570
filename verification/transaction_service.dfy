/** The append-only ledger of charges and refunds. */
module Ledger {
  import opened Common
  import opened PaymentEntities

  /** `findByPaymentId`: the entries of one payment, in table order (the query itself promises no order). */
  function TransactionsOf(ledger: seq<Transaction>, paymentId: int): (rows: seq<Transaction>)
    ensures |rows| <= |ledger|
  {
    if |ledger| == 0 then []
    else (if ledger[0].paymentId == paymentId then [ledger[0]] else []) + TransactionsOf(ledger[1..], paymentId)
  }

  /** The entries of a payment are exactly the entries that carry its id. */
  lemma {:induction false} TransactionsOfMembers(ledger: seq<Transaction>, paymentId: int)
    ensures forall t :: t in TransactionsOf(ledger, paymentId) <==> t in ledger && t.paymentId == paymentId
  {
    if |ledger| > 0 {
      TransactionsOfMembers(ledger[1..], paymentId);
      assert ledger == [ledger[0]] + ledger[1..];
    }
  }

  /** Appending an entry adds it to its own payment's entries and to no other. */
  lemma {:induction false} TransactionsOfAppend(ledger: seq<Transaction>, t: Transaction, paymentId: int)
    ensures TransactionsOf(ledger + [t], paymentId)
         == TransactionsOf(ledger, paymentId) + (if t.paymentId == paymentId then [t] else [])
  {
    if |ledger| == 0 {
      assert ledger + [t] == [t];
    } else {
      var head := if ledger[0].paymentId == paymentId then [ledger[0]] else [];
      var last := if t.paymentId == paymentId then [t] else [];
      assert (ledger + [t])[0] == ledger[0];
      assert (ledger + [t])[1..] == ledger[1..] + [t];
      TransactionsOfAppend(ledger[1..], t, paymentId);
      calc {
        TransactionsOf(ledger + [t], paymentId);
        head + TransactionsOf(ledger[1..] + [t], paymentId);
        head + (TransactionsOf(ledger[1..], paymentId) + last);
        (head + TransactionsOf(ledger[1..], paymentId)) + last;
      }
    }
  }

  /** How many entries of the given type a payment has. */
  function CountOf(ledger: seq<Transaction>, paymentId: int, kind: TransactionType): (n: nat)
    ensures n <= |ledger|
  {
    if |ledger| == 0 then 0
    else (if ledger[0].paymentId == paymentId && ledger[0].transactionType == kind then 1 else 0)
         + CountOf(ledger[1..], paymentId, kind)
  }

  lemma {:induction false} CountOfAppend(ledger: seq<Transaction>, t: Transaction, paymentId: int, kind: TransactionType)
    ensures CountOf(ledger + [t], paymentId, kind)
         == CountOf(ledger, paymentId, kind) + (if t.paymentId == paymentId && t.transactionType == kind then 1 else 0)
  {
    if |ledger| == 0 {
      assert ledger + [t] == [t];
    } else {
      assert (ledger + [t])[1..] == ledger[1..] + [t];
      CountOfAppend(ledger[1..], t, paymentId, kind);
    }
  }

  /** An entry-free payment has no entries of any type. */
  lemma {:induction false} CountOfAbsent(ledger: seq<Transaction>, paymentId: int, kind: TransactionType)
    requires forall i :: 0 <= i < |ledger| ==> ledger[i].paymentId != paymentId
    ensures CountOf(ledger, paymentId, kind) == 0
  {
    if |ledger| > 0 {
      CountOfAbsent(ledger[1..], paymentId, kind);
    }
  }

  /** A count of zero means no entry of that payment and type. */
  lemma {:induction false} CountOfZero(ledger: seq<Transaction>, paymentId: int, kind: TransactionType)
    requires CountOf(ledger, paymentId, kind) == 0
    ensures forall i :: 0 <= i < |ledger| ==> !(ledger[i].paymentId == paymentId && ledger[i].transactionType == kind)
  {
    if |ledger| > 0 {
      CountOfZero(ledger[1..], paymentId, kind);
      assert forall i :: 1 <= i < |ledger| ==> ledger[i] == ledger[1..][i - 1];
    }
  }

  /** What the ledger says the customer paid for a payment: its charges
      minus its refunds. */
  function Balance(ledger: seq<Transaction>, paymentId: int): Decimal {
    if |ledger| == 0 then 0.0
    else
      var t := ledger[0];
      var here := if t.paymentId != paymentId then 0.0
                  else if t.transactionType == CHARGE then t.amount
                  else if t.transactionType == REFUND then -t.amount
                  else 0.0;
      here + Balance(ledger[1..], paymentId)
  }

  /** `n` copies of `amount` added up. */
  function Times(n: nat, amount: Decimal): Decimal {
    if n == 0 then 0.0 else amount + Times(n - 1, amount)
  }

  /** When every entry of a payment is a charge or a refund of the same
      amount, its balance is that amount taken once per charge and given back
      once per refund. */
  lemma {:induction false} BalanceByCount(ledger: seq<Transaction>, paymentId: int, amount: Decimal)
    requires forall i :: 0 <= i < |ledger| && ledger[i].paymentId == paymentId ==>
      ledger[i].amount == amount && (ledger[i].transactionType == CHARGE || ledger[i].transactionType == REFUND)
    ensures Balance(ledger, paymentId)
         == Times(CountOf(ledger, paymentId, CHARGE), amount) - Times(CountOf(ledger, paymentId, REFUND), amount)
  {
    if |ledger| > 0 {
      var rest := ledger[1..];
      assert forall i :: 1 <= i < |ledger| ==> ledger[i] == rest[i - 1];
      BalanceByCount(rest, paymentId, amount);
      assert ledger[0].paymentId == paymentId ==> ledger[0].amount == amount;
    }
  }

  class TransactionService {
    /** The `transactions` table, oldest first. */
    var ledger: seq<Transaction>

    constructor ()
      ensures ledger == []
    {
      ledger := [];
    }

    /** Saves one entry and returns it; earlier entries are untouched. */
    method LogTransaction(paymentId: int, kind: TransactionType, amount: Decimal, transactionId: string)
      returns (saved: Transaction)
      modifies this
      ensures saved.paymentId == paymentId && saved.transactionType == kind
      ensures saved.amount == amount && saved.transactionId == transactionId
      ensures ledger == old(ledger) + [saved]
    {
      saved := Transaction(paymentId, kind, amount, transactionId);
      ledger := ledger + [saved];
    }

    method GetTransactionsByPaymentId(paymentId: int) returns (rows: seq<Transaction>)
      ensures rows == TransactionsOf(ledger, paymentId)
      ensures forall t :: t in rows <==> t in ledger && t.paymentId == paymentId
    {
      TransactionsOfMembers(ledger, paymentId);
      rows := TransactionsOf(ledger, paymentId);
    }
  }
}
