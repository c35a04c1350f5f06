/** What the hashed dumps of intent and cart say about the mandates that are settled. */
module MandateTerms {
  import opened CanonicalJson
  import opened MandateChain
  import opened Tax

  predicate Says(m: map<string, Value>, key: string, v: Value) {
    key in m && m[key] == v
  }

  function Strings(texts: seq<string>): (r: seq<Value>)
    ensures |r| == |texts|
  {
    seq(|texts|, i requires 0 <= i < |texts| => VStr(texts[i]))
  }

  predicate ItemSays(v: Value, item: CartItem) {
    && v.VObj?
    && Says(v.fields, "skuId", VStr(item.skuId)) && Says(v.fields, "quantity", VInt(item.quantity))
    && Says(v.fields, "unitPricePaise", VInt(item.unitPricePaise))
    && Says(v.fields, "gstRatePercent", VInt(item.gstRatePercent)) && Says(v.fields, "category", VStr(item.category))
  }

  predicate ItemsSay(v: Value, items: seq<CartItem>) {
    v.VArr? && |v.items| == |items| && forall i :: 0 <= i < |items| ==> ItemSays(v.items[i], items[i])
  }

  predicate TaxSays(v: Value, cart: CartMandate) {
    && v.VObj?
    && Says(v.fields, "cgstPaise", VInt(cart.declaredCgst)) && Says(v.fields, "sgstPaise", VInt(cart.declaredSgst))
    && Says(v.fields, "igstPaise", VInt(cart.declaredIgst))
  }

  /** The fields of an IntentMandate that the settlement reads, as its dump lists them. */
  predicate IntentSays(m: map<string, Value>, intent: IntentMandate) {
    && Says(m, "mandateId", VStr(intent.mandateId)) && Says(m, "delegatedAgentDid", VStr(intent.delegatedAgentDid))
    && Says(m, "maxBudgetPaise", VInt(intent.maxBudgetPaise))
    && Says(m, "authorizedCategories", VArr(Strings(intent.authorizedCategories)))
    && Says(m, "validUntilTimestamp", VInt(intent.validUntilTimestamp))
    && Says(m, "singleTransactionLimitPaise", VInt(intent.singleTransactionLimitPaise))
  }

  /** The fields of a CartMandate that the settlement reads, as its dump lists them. */
  predicate CartSays(m: map<string, Value>, cart: CartMandate) {
    && Says(m, "merchantStateCode", VStr(cart.merchantStateCode))
    && Says(m, "buyerDeliveryStateCode", VStr(cart.buyerDeliveryStateCode))
    && "items" in m && ItemsSay(m["items"], cart.items)
    && Says(m, "taxableSubtotalPaise", VInt(cart.taxableSubtotalPaise))
    && "taxBreakdown" in m && TaxSays(m["taxBreakdown"], cart)
    && Says(m, "shippingPaise", VInt(cart.shippingPaise)) && Says(m, "discountPaise", VInt(cart.discountPaise))
    && Says(m, "totalPaise", VInt(cart.totalPaise))
    && Says(m, "inventoryLockExpiresAt", VInt(cart.inventoryLockExpiresAt))
  }

  /** The dump of this intent: no floats, distinct names, and its own values. */
  ghost predicate DumpsIntent(dump: seq<Field>, intent: IntentMandate) {
    IsDump(dump) && IntentSays(MeaningFields(dump), intent)
  }

  ghost predicate DumpsCart(dump: seq<Field>, cart: CartMandate) {
    IsDump(dump) && CartSays(MeaningFields(dump), cart)
  }

  lemma SameStrings(a: seq<string>, b: seq<string>)
    requires Strings(a) == Strings(b)
    ensures a == b
  {
    assert |a| == |b|;
    forall i | 0 <= i < |a| ensures a[i] == b[i] {
      assert Strings(a)[i] == VStr(a[i]) && Strings(b)[i] == VStr(b[i]);
    }
  }

  /** Equal unsigned terms are terms of the same intent. */
  lemma TermsFixIntent(m: map<string, Value>, n: map<string, Value>, a: IntentMandate, b: IntentMandate)
    requires m - SIGNATURE_KEYS == n - SIGNATURE_KEYS && IntentSays(m, a) && IntentSays(n, b)
    ensures a == b
  {
    SameUnsignedValues(m, n);
    SameStrings(a.authorizedCategories, b.authorizedCategories);
  }

  lemma SameUnsignedValues(m: map<string, Value>, n: map<string, Value>)
    requires m - SIGNATURE_KEYS == n - SIGNATURE_KEYS
    ensures forall k :: k !in SIGNATURE_KEYS ==> (k in m <==> k in n) && (k in m ==> m[k] == n[k])
  {
    forall k | k !in SIGNATURE_KEYS ensures (k in m <==> k in n) && (k in m ==> m[k] == n[k]) {
      assert k in m - SIGNATURE_KEYS <==> k in n - SIGNATURE_KEYS;
    }
  }

  lemma SameItems(v: Value, a: seq<CartItem>, b: seq<CartItem>)
    requires ItemsSay(v, a) && ItemsSay(v, b)
    ensures a == b
  {
    forall i | 0 <= i < |a| ensures a[i] == b[i] {
      assert ItemSays(v.items[i], a[i]) && ItemSays(v.items[i], b[i]);
    }
  }

  /** Equal unsigned terms are terms of the same cart. */
  lemma TermsFixCart(m: map<string, Value>, n: map<string, Value>, a: CartMandate, b: CartMandate)
    requires m - SIGNATURE_KEYS == n - SIGNATURE_KEYS && CartSays(m, a) && CartSays(n, b)
    ensures a == b
  {
    SameUnsignedValues(m, n);
    SameItems(m["items"], a.items, b.items);
  }

  /** Under one pair of hashes that do not collide, only one intent and one cart are ever accepted. */
  lemma AcceptedHashesFixMandates(
    hash: string -> string, intentHash: string, cartHash: string,
    intentDump: seq<Field>, cartDump: seq<Field>, intent: IntentMandate, cart: CartMandate,
    intentDump': seq<Field>, cartDump': seq<Field>, intent': IntentMandate, cart': CartMandate)
    requires DumpsIntent(intentDump, intent) && DumpsCart(cartDump, cart)
    requires DumpsIntent(intentDump', intent') && DumpsCart(cartDump', cart')
    requires NoCollision(hash, intentDump, intentDump') && NoCollision(hash, cartDump, cartDump')
    requires VerifyMandateChain(hash, intentDump, cartDump, intentHash, cartHash) == ChainAccepted
    requires VerifyMandateChain(hash, intentDump', cartDump', intentHash, cartHash) == ChainAccepted
    ensures intent == intent' && cart == cart'
  {
    AcceptedChainFixesTerms(hash, intentDump, cartDump, intentDump', cartDump', intentHash, cartHash);
    UnsignedTerms(intentDump);
    UnsignedTerms(intentDump');
    UnsignedTerms(cartDump);
    UnsignedTerms(cartDump');
    TermsFixIntent(MeaningFields(intentDump), MeaningFields(intentDump'), intent, intent');
    TermsFixCart(MeaningFields(cartDump), MeaningFields(cartDump'), cart, cart');
  }
}
