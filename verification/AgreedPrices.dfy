/** Negotiated prices, kept under a joined key and pruned on write (agreedPriceRegistry.ts). */
module AgreedPrices {
  import opened Decimals

  const VALIDITY_SECONDS := 300
  const PIPE := '|'

  datatype Purchase = Purchase(buyerAgentId: string, skuId: string, quantity: int)

  datatype AgreedPrice = AgreedPrice(purchase: Purchase, unitPricePaise: int, expiresAt: int)

  datatype Option<T> = Some(value: T) | None

  function AgreementKey(p: Purchase): string {
    p.buyerAgentId + [PIPE] + p.skuId + [PIPE] + IntText(p.quantity)
  }

  // ---------------------------------------------------------------- the joined key

  lemma IntTextHasNoPipe(n: int)
    ensures PIPE !in IntText(n)
  {
    var digits := NatText(if n < 0 then -n else n);
    forall i | 0 <= i < |digits| ensures digits[i] != PIPE {
      assert IsDigit(digits[i]);
    }
  }

  /** The part before the first separator and the part after the last one can be read off a key. */
  lemma FirstPartFixed(a: string, x: string, b: string, y: string)
    requires PIPE !in a && PIPE !in b && a + [PIPE] + x == b + [PIPE] + y
    ensures a == b && x == y
  {
    var k := a + [PIPE] + x;
    assert k[|a|] == PIPE && k[|b|] == PIPE;
    forall i | 0 <= i < |a| ensures k[i] != PIPE {
      assert k[i] == a[i];
    }
    forall i | 0 <= i < |b| ensures k[i] != PIPE {
      assert k[i] == b[i];
    }
    assert |a| == |b|;
    assert k[..|a|] == a && k[..|b|] == b;
    assert k[|a| + 1..] == x && k[|b| + 1..] == y;
  }

  lemma LastPartFixed(x: string, a: string, y: string, b: string)
    requires PIPE !in a && PIPE !in b && x + [PIPE] + a == y + [PIPE] + b
    ensures a == b && x == y
  {
    var k := x + [PIPE] + a;
    assert k[|x|] == PIPE && k[|y|] == PIPE;
    forall i | |x| < i < |k| ensures k[i] != PIPE {
      assert k[i] == a[i - |x| - 1];
    }
    forall i | |y| < i < |k| ensures k[i] != PIPE {
      assert k[i] == b[i - |y| - 1];
    }
    assert |x| == |y|;
    assert k[..|x|] == x && k[..|y|] == y;
    assert k[|x| + 1..] == a && k[|y| + 1..] == b;
  }

  /** Two purchases share a key exactly when they have one quantity and their joined ids read the same. */
  lemma KeysCollideExactly(p: Purchase, q: Purchase)
    ensures AgreementKey(p) == AgreementKey(q) <==>
            p.quantity == q.quantity && p.buyerAgentId + [PIPE] + p.skuId == q.buyerAgentId + [PIPE] + q.skuId
  {
    IntTextHasNoPipe(p.quantity);
    IntTextHasNoPipe(q.quantity);
    if AgreementKey(p) == AgreementKey(q) {
      LastPartFixed(p.buyerAgentId + [PIPE] + p.skuId, IntText(p.quantity),
                    q.buyerAgentId + [PIPE] + q.skuId, IntText(q.quantity));
      IntTextInjective(p.quantity, q.quantity);
    }
  }

  /** A separator in the SKU does no harm: it is enough that buyer ids contain none. */
  predicate PlainBuyer(p: Purchase) {
    PIPE !in p.buyerAgentId
  }

  lemma KeysDistinct(p: Purchase, q: Purchase)
    requires PlainBuyer(p) && PlainBuyer(q)
    ensures AgreementKey(p) == AgreementKey(q) <==> p == q
  {
    KeysCollideExactly(p, q);
    if AgreementKey(p) == AgreementKey(q) {
      FirstPartFixed(p.buyerAgentId, p.skuId, q.buyerAgentId, q.skuId);
    }
  }

  /** With separators in buyer ids one agent's bargain can become another's price. */
  lemma PipedBuyersCollide()
    ensures AgreementKey(Purchase("a|b", "c", 1)) == AgreementKey(Purchase("a", "b|c", 1))
  {
    KeysCollideExactly(Purchase("a|b", "c", 1), Purchase("a", "b|c", 1));
    assert "a|b" + [PIPE] + "c" == "a" + [PIPE] + "b|c";
  }

  /** The key written out. */
  lemma KeyText(p: Purchase)
    ensures AgreementKey(p) == p.buyerAgentId + "|" + p.skuId + "|" + IntText(p.quantity)
  {
  }

  // ---------------------------------------------------------------- the registry

  function Unlapsed(m: map<string, AgreedPrice>, now: int): map<string, AgreedPrice> {
    map k | k in m && !(m[k].expiresAt < now) :: m[k]
  }

  function Stored(p: Purchase, unitPricePaise: int, now: int): AgreedPrice {
    AgreedPrice(p, unitPricePaise, now + VALIDITY_SECONDS)
  }

  class AgreedPriceRegistry {
    var agreementsByKey: map<string, AgreedPrice>

    constructor ()
      ensures agreementsByKey == map[]
    {
      agreementsByKey := map[];
    }

    method ForgetLapsed(nowUnix: int)
      modifies this
      ensures agreementsByKey == Unlapsed(old(agreementsByKey), nowUnix)
      ensures forall k :: k in agreementsByKey <==>
        k in old(agreementsByKey) && old(agreementsByKey)[k].expiresAt >= nowUnix
    {
      var pending := agreementsByKey.Keys;
      while pending != {}
        invariant pending <= agreementsByKey.Keys <= old(agreementsByKey).Keys
        invariant forall k :: k in agreementsByKey ==> agreementsByKey[k] == old(agreementsByKey)[k]
        invariant forall k :: k in old(agreementsByKey) && k !in pending ==>
          (k in agreementsByKey <==> !(old(agreementsByKey)[k].expiresAt < nowUnix))
        decreases pending
      {
        var key :| key in pending;
        if agreementsByKey[key].expiresAt < nowUnix {
          agreementsByKey := agreementsByKey - {key};
        }
        pending := pending - {key};
      }
    }

    method Record(purchase: Purchase, unitPricePaise: int, nowUnix: int) returns (stored: AgreedPrice)
      modifies this
      ensures stored == Stored(purchase, unitPricePaise, nowUnix)
      ensures stored == AgreedPrice(purchase, unitPricePaise, nowUnix + 300)
      ensures agreementsByKey == Unlapsed(old(agreementsByKey), nowUnix)[AgreementKey(purchase) := stored]
    {
      ForgetLapsed(nowUnix);
      stored := AgreedPrice(purchase, unitPricePaise, nowUnix + VALIDITY_SECONDS);
      agreementsByKey := agreementsByKey[AgreementKey(purchase) := stored];
    }

    method Lookup(requested: Purchase, nowUnix: int) returns (r: Option<AgreedPrice>)
      ensures r == Answer(agreementsByKey, AgreementKey(requested), nowUnix)
      ensures r.Some? <==> AgreementKey(requested) in agreementsByKey &&
                           agreementsByKey[AgreementKey(requested)].expiresAt >= nowUnix
      ensures r.Some? ==> r.value == agreementsByKey[AgreementKey(requested)]
    {
      var key := AgreementKey(requested);
      if key !in agreementsByKey || agreementsByKey[key].expiresAt < nowUnix {
        return None;
      }
      return Some(agreementsByKey[key]);
    }
  }

  /** A lapsed agreement is no answer, whether or not it is still stored. */
  function Answer<K>(m: map<K, AgreedPrice>, key: K, now: int): Option<AgreedPrice> {
    if key in m && m[key].expiresAt >= now then Some(m[key]) else None
  }

  // ---------------------------------------------------------------- against a map that never forgets

  datatype Op =
    | Bargain(purchase: Purchase, unitPricePaise: int, now: int)
    | Quote(purchase: Purchase, now: int)

  /** The registry's contents after the operations. */
  function Pruned(ops: seq<Op>): map<string, AgreedPrice> {
    if |ops| == 0 then map[]
    else
      var before, op := Pruned(ops[..|ops| - 1]), ops[|ops| - 1];
      if op.Quote? then before
      else Unlapsed(before, op.now)[AgreementKey(op.purchase) := Stored(op.purchase, op.unitPricePaise, op.now)]
  }

  /** Every agreement ever made, by purchase. */
  function Remembered(ops: seq<Op>): map<Purchase, AgreedPrice> {
    if |ops| == 0 then map[]
    else
      var before, op := Remembered(ops[..|ops| - 1]), ops[|ops| - 1];
      if op.Quote? then before else before[op.purchase := Stored(op.purchase, op.unitPricePaise, op.now)]
  }

  predicate ClockAdvances(ops: seq<Op>) {
    forall i, j :: 0 <= i < j < |ops| ==> ops[i].now <= ops[j].now
  }

  predicate PlainBuyers(ops: seq<Op>) {
    forall i :: 0 <= i < |ops| ==> PlainBuyer(ops[i].purchase)
  }

  /** What the registry still holds is right, and nothing live at `now` has been forgotten. */
  ghost predicate Agrees(pruned: map<string, AgreedPrice>, all: map<Purchase, AgreedPrice>, now: int) {
    forall p :: PlainBuyer(p) ==>
      && (AgreementKey(p) in pruned ==> p in all && all[p] == pruned[AgreementKey(p)])
      && (p in all && all[p].expiresAt >= now ==> AgreementKey(p) in pruned)
  }

  lemma BargainAgrees(
    pruned: map<string, AgreedPrice>, all: map<Purchase, AgreedPrice>, earlier: int, p: Purchase, price: int, now: int)
    requires Agrees(pruned, all, earlier) && earlier <= now && PlainBuyer(p)
    ensures Agrees(Unlapsed(pruned, now)[AgreementKey(p) := Stored(p, price, now)], all[p := Stored(p, price, now)], now)
  {
    forall q | PlainBuyer(q) ensures AgreementKey(q) == AgreementKey(p) <==> q == p {
      KeysDistinct(q, p);
    }
  }

  lemma {:induction false} RunAgrees(ops: seq<Op>, now: int)
    requires ClockAdvances(ops) && PlainBuyers(ops)
    requires |ops| > 0 ==> ops[|ops| - 1].now <= now
    ensures Agrees(Pruned(ops), Remembered(ops), now)
  {
    if |ops| > 0 {
      var op := ops[|ops| - 1];
      RunAgrees(ops[..|ops| - 1], op.now);
      if op.Bargain? {
        var rest := ops[..|ops| - 1];
        BargainAgrees(Pruned(rest), Remembered(rest), op.now, op.purchase, op.unitPricePaise, op.now);
      }
    }
  }

  /**
   * After any operations on a clock that never goes back, the pruned registry answers every lookup like a
   * map keyed by (buyer, SKU, quantity) that never forgets, if buyer ids contain no separator.
   */
  lemma AnswersAsIfNeverPruned(ops: seq<Op>, p: Purchase, now: int)
    requires ClockAdvances(ops) && PlainBuyers(ops) && PlainBuyer(p)
    requires |ops| > 0 ==> ops[|ops| - 1].now <= now
    ensures Answer(Pruned(ops), AgreementKey(p), now) == Answer(Remembered(ops), p, now)
  {
    RunAgrees(ops, now);
  }
}
