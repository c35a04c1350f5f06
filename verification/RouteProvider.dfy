/** The mock Razorpay Route ledger of razorpayRouteClient.py; which calls fail is the caller's parameter. */
module RouteProvider {
  import opened CompensationTypes

  /** RouteTransferResponse. */
  datatype RouteTransfer = RouteTransfer(id: string, account: string, amount: nat)

  /** RouteTransferRequest with the two notes that reach the idempotency key. */
  datatype TransferRequest = TransferRequest(account: string, amount: nat, purpose: string, paymentId: string)

  datatype CallResult<T> = Done(value: T) | ProviderError

  function AsTransfer(r: RouteTransfer): Transfer {
    Transfer(r.id, r.amount)
  }

  class RouteClient {
    var captured: map<string, nat>
    var transfers: map<string, RouteTransfer>
    var idempotentTransfers: map<string, RouteTransfer>
    var reversals: seq<Transfer>
    /** Ids of every reversal asked for so far, refused ones included. */
    ghost var attempted: seq<string>

    constructor ()
      ensures captured == map[] && transfers == map[] && idempotentTransfers == map[] && reversals == []
      ensures attempted == []
    {
      captured, transfers, idempotentTransfers, reversals := map[], map[], map[], [];
      attempted := [];
    }

    method CapturePayment(paymentId: string, amountPaise: nat, accepted: bool) returns (r: CallResult<nat>)
      modifies this`captured
      ensures r == if accepted then Done(amountPaise) else ProviderError
      ensures captured == if accepted then old(captured)[paymentId := amountPaise] else old(captured)
    {
      if !accepted {
        return ProviderError;
      }
      captured := captured[paymentId := amountPaise];
      return Done(amountPaise);
    }

    /** `freshId` is the id the provider draws if it creates a transfer. */
    method CreateTransfer(request: TransferRequest, key: string, freshId: string, accepted: bool)
      returns (r: CallResult<RouteTransfer>)
      modifies this`transfers, this`idempotentTransfers
      ensures key in old(idempotentTransfers) ==>
        r == Done(old(idempotentTransfers)[key]) &&
        transfers == old(transfers) && idempotentTransfers == old(idempotentTransfers)
      ensures key !in old(idempotentTransfers) && !accepted ==>
        r == ProviderError && transfers == old(transfers) && idempotentTransfers == old(idempotentTransfers)
      ensures key !in old(idempotentTransfers) && accepted ==>
        var t := RouteTransfer(freshId, request.account, request.amount);
        r == Done(t) && transfers == old(transfers)[freshId := t] &&
        idempotentTransfers == old(idempotentTransfers)[key := t]
    {
      if key in idempotentTransfers {
        return Done(idempotentTransfers[key]);
      }
      if !accepted {
        return ProviderError;
      }
      var t := RouteTransfer(freshId, request.account, request.amount);
      transfers := transfers[freshId := t];
      idempotentTransfers := idempotentTransfers[key := t];
      return Done(t);
    }

    /** The mock ledger never looks at a reversal's idempotency key, so none is taken here. */
    method ReverseTransfer(transferId: string, amountPaise: nat, accepted: bool) returns (r: CallResult<Transfer>)
      modifies this`reversals, this`attempted
      ensures attempted == old(attempted) + [transferId]
      ensures r.Done? <==> accepted && transferId in transfers
      ensures r.Done? ==>
        r.value == Transfer(transferId, if amountPaise == 0 then transfers[transferId].amount else amountPaise)
      ensures reversals == old(reversals) + (if r.Done? then [r.value] else [])
    {
      attempted := attempted + [transferId];
      if transferId !in transfers || !accepted {
        return ProviderError;
      }
      var t := Transfer(transferId, if amountPaise == 0 then transfers[transferId].amount else amountPaise);
      reversals := reversals + [t];
      return Done(t);
    }
  }
}
