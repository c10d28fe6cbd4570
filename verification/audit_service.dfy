/** The append-only audit log of payment actions. */
module Audit {
  import opened Common
  import opened PaymentEntities

  /** `findByPaymentId`: the audit entries of one payment, in table order (the query itself promises no order). */
  function AuditLogsOf(logs: seq<AuditLog>, paymentId: int): (rows: seq<AuditLog>)
    ensures |rows| <= |logs|
  {
    if |logs| == 0 then []
    else (if logs[0].paymentId == paymentId then [logs[0]] else []) + AuditLogsOf(logs[1..], paymentId)
  }

  /** The entries of a payment are exactly the entries that carry its id. */
  lemma {:induction false} AuditLogsOfMembers(logs: seq<AuditLog>, paymentId: int)
    ensures forall a :: a in AuditLogsOf(logs, paymentId) <==> a in logs && a.paymentId == paymentId
  {
    if |logs| > 0 {
      AuditLogsOfMembers(logs[1..], paymentId);
      assert logs == [logs[0]] + logs[1..];
    }
  }

  /** Appending an entry adds it to its own payment's entries and to no other. */
  lemma {:induction false} AuditLogsOfAppend(logs: seq<AuditLog>, a: AuditLog, paymentId: int)
    ensures AuditLogsOf(logs + [a], paymentId)
         == AuditLogsOf(logs, paymentId) + (if a.paymentId == paymentId then [a] else [])
  {
    if |logs| == 0 {
      assert logs + [a] == [a];
    } else {
      var head := if logs[0].paymentId == paymentId then [logs[0]] else [];
      var last := if a.paymentId == paymentId then [a] else [];
      assert (logs + [a])[0] == logs[0];
      assert (logs + [a])[1..] == logs[1..] + [a];
      AuditLogsOfAppend(logs[1..], a, paymentId);
      calc {
        AuditLogsOf(logs + [a], paymentId);
        head + AuditLogsOf(logs[1..] + [a], paymentId);
        head + (AuditLogsOf(logs[1..], paymentId) + last);
        (head + AuditLogsOf(logs[1..], paymentId)) + last;
      }
    }
  }

  class AuditService {
    /** The audit table, oldest first. */
    var logs: seq<AuditLog>

    constructor ()
      ensures logs == []
    {
      logs := [];
    }

    /** Saves one entry; earlier entries are untouched and nothing outside
        this log changes. */
    method LogAction(action: string, paymentId: int, details: string)
      modifies this
      ensures logs == old(logs) + [AuditLog(action, paymentId, details)]
    {
      logs := logs + [AuditLog(action, paymentId, details)];
    }

    method GetAuditLogsByPaymentId(paymentId: int) returns (rows: seq<AuditLog>)
      ensures rows == AuditLogsOf(logs, paymentId)
      ensures forall a :: a in rows <==> a in logs && a.paymentId == paymentId
    {
      AuditLogsOfMembers(logs, paymentId);
      rows := AuditLogsOf(logs, paymentId);
    }
  }
}
