/** Cart claims and cumulative spend (settlementLedger.py). */
module SettlementLedgers {

  function Spent(spend: map<string, int>, mandateId: string): int {
    if mandateId in spend then spend[mandateId] else 0
  }

  function Added(spend: map<string, int>, mandateId: string, delta: int): map<string, int> {
    spend[mandateId := Spent(spend, mandateId) + delta]
  }

  class SettlementLedger {
    var claims: set<string>
    var spend: map<string, int>

    constructor ()
      ensures claims == {} && spend == map[]
    {
      claims, spend := {}, map[];
    }

    method IncrBy(mandateId: string, delta: int) returns (total: int)
      modifies this`spend
      ensures spend == Added(old(spend), mandateId, delta) && total == Spent(spend, mandateId)
    {
      total := (if mandateId in spend then spend[mandateId] else 0) + delta;
      spend := spend[mandateId := total];
    }

    /** Returns false when the cart has been claimed before. */
    method ClaimCartSettlement(cartMandateHash: string) returns (claimed: bool)
      modifies this`claims
      ensures claimed <==> cartMandateHash !in old(claims)
      ensures claims == old(claims) + {cartMandateHash}
    {
      claimed := cartMandateHash !in claims;
      claims := claims + {cartMandateHash};
    }

    /** Increments first and undoes a breach, so a refusal leaves every counter where it was. */
    method RecordCumulativeSpend(mandateId: string, amountPaise: int, maxBudgetPaise: int) returns (accepted: bool)
      modifies this`spend
      ensures accepted <==> Spent(old(spend), mandateId) + amountPaise <= maxBudgetPaise
      ensures spend == Added(old(spend), mandateId, if accepted then amountPaise else 0)
    {
      var cumulative := IncrBy(mandateId, amountPaise);
      accepted := cumulative <= maxBudgetPaise;
      if !accepted {
        var _ := IncrBy(mandateId, 0 - amountPaise);
      }
    }

    method ReleaseCartClaim(cartMandateHash: string)
      modifies this`claims
      ensures claims == old(claims) - {cartMandateHash}
    {
      claims := claims - {cartMandateHash};
    }

    method ReleaseCumulativeSpend(mandateId: string, amountPaise: int)
      modifies this`spend
      ensures spend == Added(old(spend), mandateId, 0 - amountPaise)
    {
      var _ := IncrBy(mandateId, 0 - amountPaise);
    }
  }
}
