/** GST and TCS in integer paise (arithmeticEnclave.py), and the cart they are levied on. */
module Tax {
  import opened Paise

  const BASIS_POINTS := 10000
  const INTRA_STATE_HALF := 20000
  const PERCENT := 100
  const TCS_HALF_BPS := 25
  const TCS_IGST_BPS := 50

  datatype Gst = Gst(cgst: nat, sgst: nat, igst: nat, total: nat)

  /** Python's `str.strip()` whitespace. */
  predicate IsSpace(c: char) {
    var u := c as int;
    9 <= u <= 13 || 28 <= u <= 32 || u == 0x85 || u == 0xA0 || u == 0x1680 || 0x2000 <= u <= 0x200A ||
    u == 0x2028 || u == 0x2029 || u == 0x202F || u == 0x205F || u == 0x3000
  }

  /** The 29 characters that `str.isspace` accepts. */
  lemma SpaceTable(c: char)
    ensures IsSpace(c) == (c as int in {
      0x09, 0x0A, 0x0B, 0x0C, 0x0D, 0x1C, 0x1D, 0x1E, 0x1F, 0x20, 0x85, 0xA0, 0x1680,
      0x2000, 0x2001, 0x2002, 0x2003, 0x2004, 0x2005, 0x2006, 0x2007, 0x2008, 0x2009, 0x200A,
      0x2028, 0x2029, 0x202F, 0x205F, 0x3000})
  {
  }

  function StripLeft(s: string): string {
    if |s| > 0 && IsSpace(s[0]) then StripLeft(s[1..]) else s
  }

  function StripRight(s: string): string {
    if |s| > 0 && IsSpace(s[|s| - 1]) then StripRight(s[..|s| - 1]) else s
  }

  function Strip(s: string): string {
    StripRight(StripLeft(s))
  }

  lemma StripTrimmed(s: string)
    requires |s| == 0 || (!IsSpace(s[0]) && !IsSpace(s[|s| - 1]))
    ensures Strip(s) == s
  {
  }

  /** Levy on `base` at `rateBps`, halves floored separately within one state. */
  function Levy(base: nat, rateBps: nat, isIntraState: bool): (g: Gst)
    ensures g.total == g.cgst + g.sgst + g.igst
  {
    if isIntraState then
      var half := base * rateBps / INTRA_STATE_HALF;
      Gst(half, half, 0, half + half)
    else
      var whole := base * rateBps / BASIS_POINTS;
      Gst(0, 0, whole, whole)
  }

  /** `calculate_gst` with its default FLOOR rounding. */
  function CalculateGst(base: int, rateBps: int, supplierState: string, posState: string): Checked<Gst> {
    if !IsPaise(base) || !IsPaise(rateBps) then Drift
    else Ok(Levy(base, rateBps, Strip(supplierState) == Strip(posState)))
  }

  const SAME_STATE := "INTRA"
  const DIFFERENT_STATE := "INTER"

  function ComputeGstBreakdown(taxable: int, ratePercent: int, isIntraState: bool): Checked<Gst> {
    if !IsPaise(ratePercent) || !IsPaise(taxable) then Drift
    else CalculateGst(taxable, ratePercent * PERCENT, SAME_STATE, if isIntraState then SAME_STATE else DIFFERENT_STATE)
  }

  function ComputeLineItemTotal(unitPrice: int, quantity: int): Checked<nat> {
    if !IsPaise(unitPrice) || !IsPaise(quantity) || quantity <= 0 then Drift else Ok(unitPrice * quantity)
  }

  /** Total TCS under section 52: half to each head within a state, otherwise all to IGST. */
  function TcsWithheld(taxable: int, isIntraState: bool): Checked<nat> {
    if !IsPaise(taxable) then Drift
    else if isIntraState then Ok(taxable * TCS_HALF_BPS / BASIS_POINTS + taxable * TCS_HALF_BPS / BASIS_POINTS)
    else Ok(taxable * TCS_IGST_BPS / BASIS_POINTS)
  }

  function CartSettlementTotal(subtotal: int, tax: int, shipping: int, discount: int): Checked<nat> {
    if !IsPaise(subtotal) || !IsPaise(tax) || !IsPaise(shipping) || !IsPaise(discount) then Drift
    else if subtotal + tax + shipping - discount < 0 then Drift
    else Ok(subtotal + tax + shipping - discount)
  }

  /** The sentinel states make the percent adapter levy exactly what the flag says. */
  lemma AdapterFollowsFlag(taxable: int, ratePercent: int, isIntraState: bool)
    ensures ComputeGstBreakdown(taxable, ratePercent, isIntraState) ==
            if IsPaise(taxable) && IsPaise(ratePercent) && IsPaise(ratePercent * PERCENT)
            then Ok(Levy(taxable, ratePercent * PERCENT, isIntraState)) else Drift
  {
    StripTrimmed(SAME_STATE);
    StripTrimmed(DIFFERENT_STATE);
  }

  lemma HalfFloors(x: nat)
    ensures 2 * (x / INTRA_STATE_HALF) + (if x % INTRA_STATE_HALF >= BASIS_POINTS then 1 else 0) == x / BASIS_POINTS
  {
  }

  /** Within one state the tax is a paisa short exactly when the product mod 20000 is at least 10000. */
  lemma IntraStateShortfall(base: nat, rateBps: nat)
    ensures Levy(base, rateBps, true).total + (if base * rateBps % INTRA_STATE_HALF >= BASIS_POINTS then 1 else 0)
            == Levy(base, rateBps, false).total
    ensures Levy(base, rateBps, true).cgst == Levy(base, rateBps, true).sgst
  {
    HalfFloors(base * rateBps);
  }

  // ---------------------------------------------------------------- mandates

  datatype CartItem = CartItem(
    skuId: string, quantity: int, unitPricePaise: int, gstRatePercent: int, category: string)

  datatype CartMandate = CartMandate(
    merchantStateCode: string,
    buyerDeliveryStateCode: string,
    items: seq<CartItem>,
    taxableSubtotalPaise: int,
    declaredCgst: int,
    declaredSgst: int,
    declaredIgst: int,
    shippingPaise: int,
    discountPaise: int,
    totalPaise: int,
    inventoryLockExpiresAt: int)

  datatype IntentMandate = IntentMandate(
    mandateId: string,
    delegatedAgentDid: string,
    maxBudgetPaise: int,
    authorizedCategories: seq<string>,
    validUntilTimestamp: int,
    singleTransactionLimitPaise: int)

  datatype ExecutionMandate = ExecutionMandate(
    buyerAgentDid: string,
    intentMandateHash: string,
    cartMandateHash: string,
    settlementAmountPaise: int,
    nonce: string,
    timestamp: int)

  predicate ItemSchema(item: CartItem) {
    item.quantity > 0 && item.unitPricePaise > 0 && 0 <= item.gstRatePercent <= 28
  }

  predicate ItemsSchema(items: seq<CartItem>) {
    forall i :: 0 <= i < |items| ==> ItemSchema(items[i])
  }

  /** The field bounds the CartMandate schema enforces on construction. */
  predicate CartSchema(cart: CartMandate) {
    && |cart.merchantStateCode| == 2 && |cart.buyerDeliveryStateCode| == 2
    && |cart.items| > 0
    && ItemsSchema(cart.items)
    && cart.taxableSubtotalPaise > 0 && cart.shippingPaise >= 0 && cart.discountPaise >= 0 && cart.totalPaise > 0
    && cart.declaredCgst >= 0 && cart.declaredSgst >= 0 && cart.declaredIgst >= 0
  }

  // ---------------------------------------------------------------- tax of a whole cart

  datatype Totals = Totals(taxable: nat, cgst: nat, sgst: nat, igst: nat) {
    function Tax(): nat {
      cgst + sgst + igst
    }
  }

  /** Line value, before any bound is checked. */
  function LineValue(item: CartItem): nat
    requires ItemSchema(item)
  {
    item.unitPricePaise * item.quantity
  }

  /** Every amount the enclave checks on this line is inside its bound. */
  predicate LineInBounds(item: CartItem)
    requires ItemSchema(item)
  {
    IsPaise(item.unitPricePaise) && IsPaise(item.quantity) && IsPaise(LineValue(item))
  }

  predicate LinesInBounds(items: seq<CartItem>)
    requires ItemsSchema(items)
  {
    forall i :: 0 <= i < |items| ==> LineInBounds(items[i])
  }

  function LineLevy(item: CartItem, isIntraState: bool): (g: Gst)
    requires ItemSchema(item)
    ensures g.total == g.cgst + g.sgst + g.igst
  {
    Levy(LineValue(item), item.gstRatePercent * PERCENT, isIntraState)
  }

  /** The line loses a paisa when its two halves are floored separately. */
  predicate ShortLine(item: CartItem)
    requires ItemSchema(item)
  {
    LineValue(item) * (item.gstRatePercent * PERCENT) % INTRA_STATE_HALF >= BASIS_POINTS
  }

  /** Tax of the first k lines, each levied on its own. */
  function TaxTo(items: seq<CartItem>, isIntraState: bool, k: nat): Totals
    requires ItemsSchema(items) && k <= |items|
  {
    if k == 0 then Totals(0, 0, 0, 0)
    else
      var t := TaxTo(items, isIntraState, k - 1);
      var g := LineLevy(items[k - 1], isIntraState);
      Totals(t.taxable + LineValue(items[k - 1]), t.cgst + g.cgst, t.sgst + g.sgst, t.igst + g.igst)
  }

  lemma TaxStep(items: seq<CartItem>, isIntraState: bool, i: nat)
    requires ItemsSchema(items) && i < |items|
    ensures var t, g := TaxTo(items, isIntraState, i), LineLevy(items[i], isIntraState);
            TaxTo(items, isIntraState, i + 1) ==
              Totals(t.taxable + LineValue(items[i]), t.cgst + g.cgst, t.sgst + g.sgst, t.igst + g.igst)
    ensures TaxTo(items, isIntraState, i + 1).Tax() ==
            TaxTo(items, isIntraState, i).Tax() + LineLevy(items[i], isIntraState).total
  {
  }

  /** The statutory tax of a cart. */
  function CartTax(items: seq<CartItem>, isIntraState: bool): Totals
    requires ItemsSchema(items)
  {
    TaxTo(items, isIntraState, |items|)
  }

  function ShortTo(items: seq<CartItem>, k: nat): nat
    requires ItemsSchema(items) && k <= |items|
  {
    if k == 0 then 0 else ShortTo(items, k - 1) + (if ShortLine(items[k - 1]) then 1 else 0)
  }

  /** How many lines lose a paisa within one state. */
  function ShortLines(items: seq<CartItem>): nat
    requires ItemsSchema(items)
  {
    ShortTo(items, |items|)
  }

  lemma {:induction false} ShortfallTo(items: seq<CartItem>, k: nat)
    requires ItemsSchema(items) && k <= |items|
    ensures TaxTo(items, true, k).Tax() + ShortTo(items, k) == TaxTo(items, false, k).Tax()
    ensures TaxTo(items, true, k).taxable == TaxTo(items, false, k).taxable
    ensures TaxTo(items, true, k).cgst == TaxTo(items, true, k).sgst && TaxTo(items, true, k).igst == 0
    ensures TaxTo(items, false, k).cgst == TaxTo(items, false, k).sgst == 0
    ensures ShortTo(items, k) <= k
  {
    if k > 0 {
      ShortfallTo(items, k - 1);
      IntraStateShortfall(LineValue(items[k - 1]), items[k - 1].gstRatePercent * PERCENT);
    }
  }

  /** The place of supply moves a cart's tax by exactly its number of short lines. */
  lemma CartShortfall(items: seq<CartItem>)
    requires ItemsSchema(items)
    ensures CartTax(items, true).Tax() + ShortLines(items) == CartTax(items, false).Tax()
    ensures CartTax(items, true).taxable == CartTax(items, false).taxable
    ensures CartTax(items, true).cgst == CartTax(items, true).sgst && CartTax(items, true).igst == 0
    ensures CartTax(items, false).cgst == CartTax(items, false).sgst == 0
    ensures ShortLines(items) <= |items|
  {
    ShortfallTo(items, |items|);
  }

  // ---------------------------------------------------------------- the same in plain numbers

  /** Price times quantity of every line. */
  function Values(items: seq<CartItem>): (r: seq<int>)
    ensures |r| == |items|
  {
    seq(|items|, i requires 0 <= i < |items| => items[i].unitPricePaise * items[i].quantity)
  }

  /** The tax of each head within one state: half the rate in percent on every line, floored. */
  function Halves(items: seq<CartItem>): (r: seq<int>)
    ensures |r| == |items|
  {
    seq(|items|, i requires 0 <= i < |items| =>
      items[i].unitPricePaise * items[i].quantity * (items[i].gstRatePercent * 100) / 20000)
  }

  /** The tax across states: the whole rate on every line, floored. */
  function Wholes(items: seq<CartItem>): (r: seq<int>)
    ensures |r| == |items|
  {
    seq(|items|, i requires 0 <= i < |items| =>
      items[i].unitPricePaise * items[i].quantity * (items[i].gstRatePercent * 100) / 10000)
  }

  lemma {:induction false} TaxInNumbersTo(items: seq<CartItem>, k: nat)
    requires ItemsSchema(items) && k <= |items|
    ensures TaxTo(items, true, k).taxable == TaxTo(items, false, k).taxable == SumTo(Values(items), k)
    ensures TaxTo(items, true, k).cgst == TaxTo(items, true, k).sgst == SumTo(Halves(items), k)
    ensures TaxTo(items, false, k).igst == SumTo(Wholes(items), k)
  {
    if k > 0 {
      TaxInNumbersTo(items, k - 1);
      var item := items[k - 1];
      assert LineValue(item) == Values(items)[k - 1];
      assert LineLevy(item, true).cgst == LineLevy(item, true).sgst == Halves(items)[k - 1];
      assert LineLevy(item, false).igst == Wholes(items)[k - 1];
    }
  }

  /** A cart is taxed line by line on price times quantity, each line floored by itself. */
  lemma CartTaxInNumbers(items: seq<CartItem>)
    requires ItemsSchema(items)
    ensures var t := CartTax(items, true);
            t.taxable == Sum(Values(items)) && t.cgst == t.sgst == Sum(Halves(items)) && t.igst == 0
    ensures var t := CartTax(items, false);
            t.taxable == Sum(Values(items)) && t.cgst == t.sgst == 0 && t.igst == Sum(Wholes(items))
  {
    TaxInNumbersTo(items, |items|);
    CartShortfall(items);
  }

  /** A line is in bounds when its price, its quantity and its value are at most 2^63 - 1. */
  lemma BoundsInNumbers(item: CartItem)
    requires ItemSchema(item)
    ensures LineInBounds(item) <==>
            item.unitPricePaise <= 0x7FFF_FFFF_FFFF_FFFF && item.quantity <= 0x7FFF_FFFF_FFFF_FFFF &&
            item.unitPricePaise * item.quantity <= 0x7FFF_FFFF_FFFF_FFFF
  {
  }
}
