/** Records shared by the compensation queue, its worker and the rollback protocol. */
module CompensationTypes {

  /** A completed split leg: provider transfer id and amount in paise. */
  datatype Transfer = Transfer(id: string, amount: nat)

  datatype Status = Pending | Compensated | DeadLetter

  /** CompensationEvent of compensationDlq.py. */
  datatype Event = Event(
    idempotencyKey: string, transferId: string, amountPaise: nat,
    retryCount: nat, maxRetries: nat, status: Status)

  /** `cmp_{transferId}`, the default key of both the inline reversal and the queue. */
  function ReversalKey(transferId: string): string {
    "cmp_" + transferId
  }

  lemma ReversalKeyInjective(a: string, b: string)
    requires ReversalKey(a) == ReversalKey(b)
    ensures a == b
  {
    assert ReversalKey(a)[4..] == a && ReversalKey(b)[4..] == b;
  }

  function NewEvent(t: Transfer, maxRetries: nat): Event {
    Event(ReversalKey(t.id), t.id, t.amount, 0, maxRetries, Pending)
  }

  /** The event a failed attempt leaves behind. */
  function AfterFailure(e: Event): Event {
    var n := e.retryCount + 1;
    e.(retryCount := n, status := if n >= e.maxRetries then DeadLetter else Pending)
  }
}
