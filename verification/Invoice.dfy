/** The GSTR-1 invoice (gstrInvoiceEngine.py) and its agreement with the budget gate. */
module Invoice {
  import opened Paise
  import opened Tax
  import opened BudgetGate

  datatype LineItem = LineItem(skuId: string, quantity: int, taxable: nat, cgst: nat, sgst: nat, igst: nat, total: nat)

  datatype InvoicePayload = InvoicePayload(
    isIntraState: bool, lines: seq<LineItem>, totals: Totals, totalTcs: nat,
    shippingPaise: int, discountPaise: int, grandTotalPaise: int)

  /** InvoiceInvalid is a schema violation of the payload: a grand total that is not positive. */
  datatype InvoiceOutcome = Issued(invoice: InvoicePayload) | InvoiceDrift | InvoiceInvalid

  /** Unlike the gate, the invoice strips both state codes before comparing them. */
  predicate IsPlaceOfSupplyIntraState(cart: CartMandate) {
    Strip(cart.merchantStateCode) == Strip(cart.buyerDeliveryStateCode)
  }

  function LineOf(item: CartItem, intra: bool): LineItem
    requires ItemSchema(item)
  {
    var v := LineValue(item);
    var g := LineLevy(item, intra);
    LineItem(item.skuId, item.quantity, v, g.cgst, g.sgst, g.igst, v + g.total)
  }

  /** The body of the invoice's line loop. */
  method BuildLine(item: CartItem, intra: bool) returns (r: Checked<LineItem>)
    requires ItemSchema(item)
    ensures r == if LineInBounds(item) then Ok(LineOf(item, intra)) else Drift
  {
    LineChecks(item, intra);
    var line := ComputeLineItemTotal(item.unitPricePaise, item.quantity);
    if line.Drift? {
      return Drift;
    }
    var gst := ComputeGstBreakdown(line.value, item.gstRatePercent, intra);
    if gst.Drift? {
      return Drift;
    }
    var g := gst.value;
    return Ok(LineItem(item.skuId, item.quantity, line.value, g.cgst, g.sgst, g.igst, line.value + g.total));
  }

  method BuildLineItemsAndTaxTotals(cart: CartMandate, intra: bool) returns (r: Checked<(seq<LineItem>, Totals)>)
    requires CartSchema(cart)
    ensures r.Ok? <==> LinesInBounds(cart.items)
    ensures r.Ok? ==> r.value.1 == CartTax(cart.items, intra)
    ensures r.Ok? ==> |r.value.0| == |cart.items| &&
                      forall i :: 0 <= i < |cart.items| ==> r.value.0[i] == LineOf(cart.items[i], intra)
  {
    var lines: seq<LineItem> := [];
    var taxable: nat, cgst: nat, sgst: nat, igst: nat := 0, 0, 0, 0;
    for i := 0 to |cart.items|
      invariant forall j :: 0 <= j < i ==> LineInBounds(cart.items[j])
      invariant |lines| == i && forall j :: 0 <= j < i ==> lines[j] == LineOf(cart.items[j], intra)
      invariant var t := TaxTo(cart.items, intra, i);
                taxable == t.taxable && cgst == t.cgst && sgst == t.sgst && igst == t.igst
    {
      TaxStep(cart.items, intra, i);
      var line := BuildLine(cart.items[i], intra);
      if line.Drift? {
        return Drift;
      }
      var l := line.value;
      lines := lines + [l];
      taxable, cgst, sgst, igst := taxable + l.taxable, cgst + l.cgst, sgst + l.sgst, igst + l.igst;
    }
    return Ok((lines, Totals(taxable, cgst, sgst, igst)));
  }

  function GrandTotal(cart: CartMandate, t: Totals): int {
    t.taxable + t.Tax() + cart.shippingPaise - cart.discountPaise
  }

  /** The lines of an invoice add up to its totals. */
  predicate InvoiceFits(cart: CartMandate, inv: InvoicePayload)
    requires CartSchema(cart)
  {
    && inv.isIntraState == IsPlaceOfSupplyIntraState(cart)
    && inv.totals == CartTax(cart.items, inv.isIntraState)
    && |inv.lines| == |cart.items|
    && (forall i :: 0 <= i < |cart.items| ==> inv.lines[i] == LineOf(cart.items[i], inv.isIntraState))
    && inv.grandTotalPaise == GrandTotal(cart, inv.totals) > 0
    && TcsWithheld(inv.totals.taxable, inv.isIntraState) == Ok(inv.totalTcs)
    && inv.shippingPaise == cart.shippingPaise && inv.discountPaise == cart.discountPaise
  }

  /** The invoice in plain numbers: price times quantity on every line, tax floored per line, and the sums. */
  predicate InvoiceFigures(cart: CartMandate, inv: InvoicePayload) {
    var values, halves, wholes := Values(cart.items), Halves(cart.items), Wholes(cart.items);
    && |inv.lines| == |cart.items|
    && (forall i :: 0 <= i < |cart.items| ==>
          var l, item := inv.lines[i], cart.items[i];
          && l.skuId == item.skuId && l.quantity == item.quantity
          && l.taxable == item.unitPricePaise * item.quantity
          && l.total == l.taxable + l.cgst + l.sgst + l.igst
          && (if inv.isIntraState then l.cgst == l.sgst == halves[i] && l.igst == 0
              else l.cgst == l.sgst == 0 && l.igst == wholes[i]))
    && inv.grandTotalPaise == Sum(values) + cart.shippingPaise - cart.discountPaise
                              + (if inv.isIntraState then 2 * Sum(halves) else Sum(wholes))
    && inv.totalTcs == (if inv.isIntraState then 2 * (Sum(values) / 400) else Sum(values) / 200)
  }

  lemma FitMeansFigures(cart: CartMandate, inv: InvoicePayload)
    requires CartSchema(cart) && InvoiceFits(cart, inv)
    ensures InvoiceFigures(cart, inv)
  {
    CartTaxInNumbers(cart.items);
    TcsFigures(inv.totals.taxable);
  }

  lemma TcsFigures(taxable: nat)
    ensures taxable * TCS_HALF_BPS / BASIS_POINTS == taxable / 400
    ensures taxable * TCS_IGST_BPS / BASIS_POINTS == taxable / 200
  {
  }

  method GenerateGstrInvoice(cart: CartMandate) returns (r: InvoiceOutcome)
    requires CartSchema(cart)
    ensures var t := CartTax(cart.items, IsPlaceOfSupplyIntraState(cart));
            && (r.InvoiceDrift? <==> !LinesInBounds(cart.items) || !IsPaise(t.taxable))
            && (r.InvoiceInvalid? <==> LinesInBounds(cart.items) && IsPaise(t.taxable) && GrandTotal(cart, t) <= 0)
    ensures r.Issued? ==> InvoiceFits(cart, r.invoice) && InvoiceFigures(cart, r.invoice)
  {
    var intra := IsPlaceOfSupplyIntraState(cart);
    var built := BuildLineItemsAndTaxTotals(cart, intra);
    if built.Drift? {
      return InvoiceDrift;
    }
    var (lines, t) := built.value;
    var grandTotal := t.taxable + t.Tax() + cart.shippingPaise - cart.discountPaise;
    var tcs := TcsWithheld(t.taxable, intra);
    if tcs.Drift? {
      return InvoiceDrift;
    }
    if grandTotal <= 0 {
      return InvoiceInvalid;
    }
    r := Issued(InvoicePayload(intra, lines, t, tcs.value, cart.shippingPaise, cart.discountPaise, grandTotal));
    FitMeansFigures(cart, r.invoice);
  }

  /** Surrounding spaces in the state codes do not change the place of supply. */
  predicate PlaceAgrees(cart: CartMandate) {
    IsIntraState(cart) <==> IsPlaceOfSupplyIntraState(cart)
  }

  lemma TrimmedCodesAgree(cart: CartMandate)
    requires CartSchema(cart)
    requires forall c :: c in cart.merchantStateCode || c in cart.buyerDeliveryStateCode ==> !IsSpace(c)
    ensures PlaceAgrees(cart)
  {
    StripTrimmed(cart.merchantStateCode);
    StripTrimmed(cart.buyerDeliveryStateCode);
  }

  /**
   * A cart the gate accepts is invoiced for exactly its total unless the codes differ only by spaces
   * and some line loses a paisa; its declared heads reappear unless, in that case, it declared IGST.
   */
  lemma GateAgreesWithInvoice(
    intent: IntentMandate, cart: CartMandate, execution: ExecutionMandate, evalTime: int,
    categories: seq<string>, fold: string -> string)
    requires CartSchema(cart) && GateAccepts(intent, cart, execution, evalTime, categories, fold)
    ensures var t := CartTax(cart.items, IsPlaceOfSupplyIntraState(cart));
            && LinesInBounds(cart.items) && IsPaise(t.taxable)
            && (GrandTotal(cart, t) == cart.totalPaise <==> PlaceAgrees(cart) || ShortLines(cart.items) == 0)
            && (HeadsDeclared(cart, t) <==> PlaceAgrees(cart) || cart.declaredIgst == 0)
            && GrandTotal(cart, t) + (if PlaceAgrees(cart) then 0 else ShortLines(cart.items)) == cart.totalPaise
  {
    CartShortfall(cart.items);
    if cart.merchantStateCode == cart.buyerDeliveryStateCode {
      assert PlaceAgrees(cart);
    }
  }

  lemma SpacedSeven()
    ensures Strip("7 ") == "7" && Strip(" 7") == "7"
  {
    assert StripLeft("7 ") == "7 " && "7 "[..1] == "7";
    assert StripRight("7") == "7";
    assert " 7"[1..] == "7" && StripLeft("7") == "7";
  }

  const TEN_PAISE_LINE := CartItem("s", 1, 10, 10, "c")

  lemma TenPaiseTax(items: seq<CartItem>)
    requires items == [TEN_PAISE_LINE]
    ensures ItemsSchema(items) && LinesInBounds(items) && ShortLines(items) == 1
    ensures CartTax(items, true) == Totals(10, 0, 0, 0) && CartTax(items, false) == Totals(10, 0, 0, 1)
  {
    var item := items[0];
    assert LineValue(item) == 10 && ShortLine(item);
    assert LineLevy(item, true) == Gst(0, 0, 0, 0) && LineLevy(item, false) == Gst(0, 0, 1, 1);
    assert TaxTo(items, true, 0) == Totals(0, 0, 0, 0) && TaxTo(items, false, 0) == Totals(0, 0, 0, 0);
    assert ShortTo(items, 0) == 0;
  }

  /** Such a cart exists: codes "7 " and " 7" differ for the gate, which accepts it, and not for the invoice. */
  lemma SpacedCodesDisagree(
    intent: IntentMandate, cart: CartMandate, execution: ExecutionMandate, now: int,
    categories: seq<string>, fold: string -> string)
    requires cart == CartMandate("7 ", " 7", [TEN_PAISE_LINE], 10, 0, 0, 1, 0, 0, 11, 1)
    requires intent == IntentMandate("m", "agent", 11, [], now, 11)
    requires execution == ExecutionMandate("agent", "", "", 11, "n", now)
    ensures CartSchema(cart) && GateAccepts(intent, cart, execution, now, categories, fold)
    ensures GrandTotal(cart, CartTax(cart.items, IsPlaceOfSupplyIntraState(cart))) == cart.totalPaise - 1
  {
    TenPaiseTax(cart.items);
    SpacedSeven();
    assert cart.merchantStateCode[0] != cart.buyerDeliveryStateCode[0];
  }
}
