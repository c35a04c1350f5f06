/** The budget gate (budgetGate.py). */
module BudgetGate {
  import opened Paise
  import opened Tax

  datatype GateOutcome =
    | Accepted
    | MandateExpired
    | UnauthorizedAgent
    | GateDrift
    | TaxHeadMismatch
    | EnclaveMismatch
    | BudgetExceeded
    | SingleLimitExceeded
    | CategoryNotAuthorized

  predicate IsIntraState(cart: CartMandate) {
    cart.merchantStateCode == cart.buyerDeliveryStateCode
  }

  predicate HeadsDeclared(cart: CartMandate, t: Totals) {
    cart.declaredCgst == t.cgst && cart.declaredSgst == t.sgst && cart.declaredIgst == t.igst
  }

  /** What one line of any of the tax loops computes. */
  lemma LineChecks(item: CartItem, intra: bool)
    requires ItemSchema(item)
    ensures var v := ComputeLineItemTotal(item.unitPricePaise, item.quantity);
            if LineInBounds(item) then
              v == Ok(LineValue(item)) &&
              ComputeGstBreakdown(v.value, item.gstRatePercent, intra)
                == Ok(LineLevy(item, intra))
            else v.Drift? || ComputeGstBreakdown(v.value, item.gstRatePercent, intra).Drift?
  {
    AdapterFollowsFlag(LineValue(item), item.gstRatePercent, intra);
  }

  /** `_verifyTaxHeads`: are the declared heads the statutory ones? */
  method VerifyTaxHeads(cart: CartMandate, intra: bool) returns (r: Checked<bool>)
    requires CartSchema(cart)
    ensures r == if LinesInBounds(cart.items) then Ok(HeadsDeclared(cart, CartTax(cart.items, intra))) else Drift
  {
    var cgst, sgst, igst := 0, 0, 0;
    for i := 0 to |cart.items|
      invariant forall j :: 0 <= j < i ==> LineInBounds(cart.items[j])
      invariant var t := TaxTo(cart.items, intra, i); cgst == t.cgst && sgst == t.sgst && igst == t.igst
    {
      var item := cart.items[i];
      LineChecks(item, intra);
      TaxStep(cart.items, intra, i);
      var line := ComputeLineItemTotal(item.unitPricePaise, item.quantity);
      if line.Drift? {
        return Drift;
      }
      var gst := ComputeGstBreakdown(line.value, item.gstRatePercent, intra);
      if gst.Drift? {
        return Drift;
      }
      cgst, sgst, igst := cgst + gst.value.cgst, sgst + gst.value.sgst, igst + gst.value.igst;
    }
    return Ok(cart.declaredCgst == cgst && cart.declaredSgst == sgst && cart.declaredIgst == igst);
  }

  function EnclaveTotal(cart: CartMandate, intra: bool): Checked<nat>
    requires CartSchema(cart)
  {
    if !LinesInBounds(cart.items) then Drift
    else
      var t := CartTax(cart.items, intra);
      CartSettlementTotal(t.taxable, t.Tax(), cart.shippingPaise, cart.discountPaise)
  }

  method RecomputeEnclaveTotal(cart: CartMandate, intra: bool) returns (r: Checked<nat>)
    requires CartSchema(cart)
    ensures r == EnclaveTotal(cart, intra)
  {
    var subtotal, tax := 0, 0;
    for i := 0 to |cart.items|
      invariant forall j :: 0 <= j < i ==> LineInBounds(cart.items[j])
      invariant var t := TaxTo(cart.items, intra, i); subtotal == t.taxable && tax == t.cgst + t.sgst + t.igst
    {
      var item := cart.items[i];
      LineChecks(item, intra);
      TaxStep(cart.items, intra, i);
      var line := ComputeLineItemTotal(item.unitPricePaise, item.quantity);
      if line.Drift? {
        return Drift;
      }
      var gst := ComputeGstBreakdown(line.value, item.gstRatePercent, intra);
      if gst.Drift? {
        return Drift;
      }
      subtotal, tax := subtotal + line.value, tax + gst.value.total;
    }
    assert LinesInBounds(cart.items);
    return CartSettlementTotal(subtotal, tax, cart.shippingPaise, cart.discountPaise);
  }

  /** `fold` is `strip().casefold()`. */
  predicate CategoriesAuthorized(intent: IntentMandate, categories: seq<string>, fold: string -> string) {
    |intent.authorizedCategories| == 0 ||
    (|categories| > 0 && forall c :: c in categories ==>
       exists a :: a in intent.authorizedCategories && fold(a) == fold(c))
  }

  /** What acceptance promises about the three mandates. */
  predicate GateAccepts(
    intent: IntentMandate, cart: CartMandate, execution: ExecutionMandate, evalTime: int,
    categories: seq<string>, fold: string -> string)
    requires CartSchema(cart)
  {
    && evalTime <= intent.validUntilTimestamp
    && execution.buyerAgentDid == intent.delegatedAgentDid
    && LinesInBounds(cart.items)
    && HeadsDeclared(cart, CartTax(cart.items, IsIntraState(cart)))
    && EnclaveTotal(cart, IsIntraState(cart)) == Ok(execution.settlementAmountPaise)
    && cart.totalPaise == execution.settlementAmountPaise
    && execution.settlementAmountPaise <= intent.maxBudgetPaise
    && execution.settlementAmountPaise <= intent.singleTransactionLimitPaise
    && CategoriesAuthorized(intent, categories, fold)
  }

  method VerifyCategoryAuthorization(intent: IntentMandate, categories: seq<string>, fold: string -> string)
    returns (authorized: bool)
    ensures authorized <==> CategoriesAuthorized(intent, categories, fold)
  {
    if |intent.authorizedCategories| == 0 {
      return true;
    }
    var allowed := set a | a in intent.authorizedCategories :: fold(a);
    if |categories| == 0 {
      return false;
    }
    var refused := set c | c in categories && fold(c) !in allowed;
    authorized := refused == {};
    assert authorized ==> forall c :: c in categories ==> c !in refused;
    assert !authorized ==> exists c :: c in refused;
  }

  /** The first check that fails, in the gate's own order. */
  function GateVerdict(
    intent: IntentMandate, cart: CartMandate, execution: ExecutionMandate, evalTime: int,
    categories: seq<string>, fold: string -> string): GateOutcome
    requires CartSchema(cart)
  {
    var amount, total := execution.settlementAmountPaise, EnclaveTotal(cart, IsIntraState(cart));
    if evalTime > intent.validUntilTimestamp then MandateExpired
    else if execution.buyerAgentDid != intent.delegatedAgentDid then UnauthorizedAgent
    else if !LinesInBounds(cart.items) then GateDrift
    else if !HeadsDeclared(cart, CartTax(cart.items, IsIntraState(cart))) then TaxHeadMismatch
    else if total.Drift? then GateDrift
    else if total.value != amount || cart.totalPaise != amount then EnclaveMismatch
    else if amount > intent.maxBudgetPaise then BudgetExceeded
    else if amount > intent.singleTransactionLimitPaise then SingleLimitExceeded
    else if !CategoriesAuthorized(intent, categories, fold) then CategoryNotAuthorized
    else Accepted
  }

  /** The declared heads are the statutory ones, and the amount is values, tax and shipping less the discount. */
  predicate FiguresAgree(cart: CartMandate, amount: int) {
    var values, halves, wholes := Sum(Values(cart.items)), Sum(Halves(cart.items)), Sum(Wholes(cart.items));
    && (if cart.merchantStateCode == cart.buyerDeliveryStateCode
        then cart.declaredCgst == halves && cart.declaredSgst == halves && cart.declaredIgst == 0
        else cart.declaredCgst == 0 && cart.declaredSgst == 0 && cart.declaredIgst == wholes)
    && amount == cart.totalPaise == values + cart.declaredCgst + cart.declaredSgst + cart.declaredIgst
                                    + cart.shippingPaise - cart.discountPaise
  }

  /** Acceptance in plain numbers. */
  lemma GateInNumbers(
    intent: IntentMandate, cart: CartMandate, execution: ExecutionMandate, evalTime: int,
    categories: seq<string>, fold: string -> string)
    requires CartSchema(cart)
    ensures GateAccepts(intent, cart, execution, evalTime, categories, fold) <==>
      && evalTime <= intent.validUntilTimestamp && execution.buyerAgentDid == intent.delegatedAgentDid
      && (forall i :: 0 <= i < |cart.items| ==> LineInBounds(cart.items[i]))
      && Sum(Values(cart.items)) <= 0x7FFF_FFFF_FFFF_FFFF
      && cart.declaredCgst + cart.declaredSgst + cart.declaredIgst <= 0x7FFF_FFFF_FFFF_FFFF
      && cart.shippingPaise <= 0x7FFF_FFFF_FFFF_FFFF && cart.discountPaise <= 0x7FFF_FFFF_FFFF_FFFF
      && FiguresAgree(cart, execution.settlementAmountPaise)
      && cart.totalPaise <= intent.maxBudgetPaise && cart.totalPaise <= intent.singleTransactionLimitPaise
      && (intent.authorizedCategories == [] ||
          (categories != [] && forall c :: c in categories ==>
             exists a :: a in intent.authorizedCategories && fold(a) == fold(c)))
  {
    CartTaxInNumbers(cart.items);
  }

  /** Which refusal is reported: the first in this order that applies. */
  lemma RefusalsInOrder(
    intent: IntentMandate, cart: CartMandate, execution: ExecutionMandate, evalTime: int,
    categories: seq<string>, fold: string -> string)
    requires CartSchema(cart)
    ensures var r := GateVerdict(intent, cart, execution, evalTime, categories, fold);
            var t := CartTax(cart.items, cart.merchantStateCode == cart.buyerDeliveryStateCode);
            var heads := cart.declaredCgst == t.cgst && cart.declaredSgst == t.sgst && cart.declaredIgst == t.igst;
            var timely := evalTime <= intent.validUntilTimestamp;
            var agent := timely && execution.buyerAgentDid == intent.delegatedAgentDid;
            var taxed := agent && LinesInBounds(cart.items) && heads;
            var tax, max := t.cgst + t.sgst + t.igst, 0x7FFF_FFFF_FFFF_FFFF;
            var due := t.taxable + tax + cart.shippingPaise - cart.discountPaise;
            var counted := taxed && due >= 0 && t.taxable <= max && tax <= max &&
                           cart.shippingPaise <= max && cart.discountPaise <= max;
            var matched := counted && due == execution.settlementAmountPaise == cart.totalPaise;
            && (r == MandateExpired <==> !timely)
            && (r == UnauthorizedAgent <==> timely && !agent)
            && (r == TaxHeadMismatch <==> agent && LinesInBounds(cart.items) && !heads)
            && (r == GateDrift <==> agent && (!LinesInBounds(cart.items) || (heads && !counted)))
            && (r == EnclaveMismatch <==> counted && !matched)
            && (r == BudgetExceeded <==> matched && cart.totalPaise > intent.maxBudgetPaise)
            && (r == SingleLimitExceeded <==>
                  matched && cart.totalPaise <= intent.maxBudgetPaise &&
                  cart.totalPaise > intent.singleTransactionLimitPaise)
            && (r == CategoryNotAuthorized <==>
                  matched && cart.totalPaise <= intent.maxBudgetPaise &&
                  cart.totalPaise <= intent.singleTransactionLimitPaise &&
                  intent.authorizedCategories != [] &&
                  (categories == [] ||
                   exists c :: c in categories && forall a :: a in intent.authorizedCategories ==> fold(a) != fold(c)))
  {
  }

  method ValidateBudgetGate(
    intent: IntentMandate, cart: CartMandate, execution: ExecutionMandate, evalTime: int,
    categories: seq<string>, fold: string -> string)
    returns (r: GateOutcome)
    requires CartSchema(cart)
    ensures r == GateVerdict(intent, cart, execution, evalTime, categories, fold)
    ensures r == Accepted <==> GateAccepts(intent, cart, execution, evalTime, categories, fold)
    ensures r == Accepted ==> FiguresAgree(cart, execution.settlementAmountPaise)
  {
    GateInNumbers(intent, cart, execution, evalTime, categories, fold);
    if evalTime > intent.validUntilTimestamp {
      return MandateExpired;
    }
    if execution.buyerAgentDid != intent.delegatedAgentDid {
      return UnauthorizedAgent;
    }
    var intra := IsIntraState(cart);
    var heads := VerifyTaxHeads(cart, intra);
    if heads.Drift? {
      return GateDrift;
    }
    if !heads.value {
      return TaxHeadMismatch;
    }
    var total := RecomputeEnclaveTotal(cart, intra);
    if total.Drift? {
      return GateDrift;
    }
    var amount := execution.settlementAmountPaise;
    if total.value != amount || cart.totalPaise != amount {
      return EnclaveMismatch;
    }
    if amount > intent.maxBudgetPaise {
      return BudgetExceeded;
    }
    if amount > intent.singleTransactionLimitPaise {
      return SingleLimitExceeded;
    }
    var authorized := VerifyCategoryAuthorization(intent, categories, fold);
    return if authorized then Accepted else CategoryNotAuthorized;
  }
}
