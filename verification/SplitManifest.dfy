/** Splitting a captured payment into transfer legs (splitManifestBuilder.py, twoPhaseCommitSaga.py). */
module SplitManifest {
  import opened Paise
  import opened Tax
  import opened BudgetGate
  import opened RouteProvider
  import Invoice

  datatype Accounts = Accounts(merchant: string, protocolFee: string, logistics: string, tcsHolding: string)

  datatype Manifest = Manifest(accounts: Accounts, merchant: int, protocolFee: int, logistics: int, tcs: int, total: int)

  /** Overdraft and ManifestDrift are ArithmeticDriftException; ManifestInvalid is a schema violation. */
  datatype ManifestOutcome = Built(manifest: Manifest) | Overdraft | ManifestDrift | ManifestInvalid

  predicate AccountsNamed(a: Accounts) {
    a.merchant != "" && a.protocolFee != "" && a.logistics != "" && a.tcsHolding != ""
  }

  /** Every paisa captured is assigned to exactly one account and the merchant is left with something. */
  predicate Conserves(m: Manifest) {
    m.merchant + m.protocolFee + m.logistics + m.tcs == m.total &&
    m.merchant > 0 && m.protocolFee >= 0 && m.logistics >= 0 && m.tcs >= 0
  }

  /** Place of supply is decided on the raw codes and TCS on the subtotal the cart declares. */
  function BuildSplitManifest(cart: CartMandate, accounts: Accounts, protocolFee: int): (r: ManifestOutcome)
    requires CartSchema(cart)
    ensures r.Built? ==> Conserves(r.manifest) && r.manifest.total == cart.totalPaise && r.manifest.accounts == accounts
    ensures r.Built? ==> r.manifest.protocolFee == protocolFee && r.manifest.logistics == cart.shippingPaise
    ensures r.Built? ==>
      AccountsNamed(accounts) && TcsWithheld(cart.taxableSubtotalPaise, IsIntraState(cart)) == Ok(r.manifest.tcs)
  {
    var tcs := TcsWithheld(cart.taxableSubtotalPaise, IsIntraState(cart));
    if tcs.Drift? then ManifestDrift
    else
      var deductions := protocolFee + cart.shippingPaise + tcs.value;
      if deductions >= cart.totalPaise then Overdraft
      else if !AccountsNamed(accounts) || protocolFee < 0 then ManifestInvalid
      else
        Built(Manifest(accounts, cart.totalPaise - deductions, protocolFee, cart.shippingPaise, tcs.value,
                       cart.totalPaise))
  }

  /** The TCS of a taxable amount: two floored halves within a state, one floored whole across states. */
  lemma TcsInUnits(taxable: nat, intra: bool)
    requires IsPaise(taxable)
    ensures TcsWithheld(taxable, intra) == Ok(if intra then 2 * (taxable / 400) else taxable / 200)
  {
    assert taxable * TCS_HALF_BPS / BASIS_POINTS == taxable / 400;
    assert taxable * TCS_IGST_BPS / BASIS_POINTS == taxable / 200;
  }

  /** Which outcome occurs, and what the manifest then holds, in plain numbers. */
  lemma ManifestInNumbers(cart: CartMandate, accounts: Accounts, fee: int)
    requires CartSchema(cart)
    ensures var d, r := cart.taxableSubtotalPaise, BuildSplitManifest(cart, accounts, fee);
            var tcs := if cart.merchantStateCode == cart.buyerDeliveryStateCode then 2 * (d / 400) else d / 200;
            var net := cart.totalPaise - fee - cart.shippingPaise - tcs;
            var named := accounts.merchant != "" && accounts.protocolFee != "" && accounts.logistics != "" &&
                         accounts.tcsHolding != "";
            && (r.ManifestDrift? <==> d > 0x7FFF_FFFF_FFFF_FFFF)
            && (r.Overdraft? <==> !r.ManifestDrift? && net <= 0)
            && (r.ManifestInvalid? <==> !r.ManifestDrift? && net > 0 && (fee < 0 || !named))
            && (r.Built? ==> r.manifest == Manifest(accounts, net, fee, cart.shippingPaise, tcs, cart.totalPaise))
  {
    if cart.taxableSubtotalPaise <= MAX_PAISE {
      TcsInUnits(cart.taxableSubtotalPaise, IsIntraState(cart));
    }
  }

  /**
   * When the cart's declared subtotal d and its lines' taxable value a give the same TCS: the raw codes decide
   * for d, the trimmed ones for a.
   */
  predicate TcsDeclaredRight(cart: CartMandate, a: nat)
    requires CartSchema(cart)
  {
    var d := cart.taxableSubtotalPaise;
    if IsIntraState(cart) then d / 400 == a / 400
    else if Invoice.IsPlaceOfSupplyIntraState(cart) then d / 200 == 2 * (a / 400)
    else d / 200 == a / 200
  }

  /** The TCS held back is the TCS invoiced exactly when the cart declares its subtotal right to the unit. */
  lemma TcsAgreesExactly(cart: CartMandate, accounts: Accounts, protocolFee: int, inv: Invoice.InvoicePayload)
    requires CartSchema(cart) && Invoice.InvoiceFits(cart, inv)
    requires BuildSplitManifest(cart, accounts, protocolFee).Built?
    ensures BuildSplitManifest(cart, accounts, protocolFee).manifest.tcs == inv.totalTcs <==>
            TcsDeclaredRight(cart, CartTax(cart.items, Invoice.IsPlaceOfSupplyIntraState(cart)).taxable)
  {
    var d, a := cart.taxableSubtotalPaise, inv.totals.taxable;
    TcsInUnits(d, IsIntraState(cart));
    TcsInUnits(a, inv.isIntraState);
  }

  lemma HundredRupeeTax(items: seq<CartItem>)
    requires items == [CartItem("s", 1, 10000, 0, "c")]
    ensures ItemsSchema(items) && LinesInBounds(items)
    ensures CartTax(items, true) == Totals(10000, 0, 0, 0)
  {
    var item := items[0];
    assert LineValue(item) == 10000 && LineInBounds(item);
    assert LineLevy(item, true) == Gst(0, 0, 0, 0);
    assert TaxTo(items, true, 0) == Totals(0, 0, 0, 0);
  }

  /**
   * The gate never compares the declared subtotal with the lines, so a cart it accepts can have less TCS
   * held back than its invoice reports.
   */
  lemma TcsFollowsDeclaredSubtotal(
    intent: IntentMandate, cart: CartMandate, execution: ExecutionMandate, now: int,
    categories: seq<string>, fold: string -> string)
    requires cart == CartMandate("29", "29", [CartItem("s", 1, 10000, 0, "c")], 1, 0, 0, 0, 0, 0, 10000, 1)
    requires intent == IntentMandate("m", "agent", 10000, [], now, 10000)
    requires execution == ExecutionMandate("agent", "", "", 10000, "n", now)
    ensures CartSchema(cart) && GateAccepts(intent, cart, execution, now, categories, fold)
    ensures TcsWithheld(cart.taxableSubtotalPaise, IsIntraState(cart)) == Ok(0)
    ensures TcsWithheld(CartTax(cart.items, IsIntraState(cart)).taxable, IsIntraState(cart)) == Ok(50)
  {
    HundredRupeeTax(cart.items);
    TcsOfExample();
  }

  lemma TcsOfExample()
    ensures TcsWithheld(1, true) == Ok(0) && TcsWithheld(10000, true) == Ok(50)
    ensures CartSettlementTotal(10000, 0, 0, 0) == Ok(10000)
  {
  }

  lemma LargestLineTax(items: seq<CartItem>)
    requires items == [CartItem("s", 1, MAX_PAISE, 28, "c")]
    ensures ItemsSchema(items) && LinesInBounds(items)
    ensures CartTax(items, false) == Totals(MAX_PAISE, 0, 0, MAX_PAISE * 2800 / BASIS_POINTS)
  {
    var item := items[0];
    assert LineValue(item) == MAX_PAISE && LineInBounds(item);
    assert TaxTo(items, false, 0) == Totals(0, 0, 0, 0);
  }

  /** Tax on the largest line lifts a cart above the bound, and with it a leg that no event can record. */
  lemma AcceptedLegAboveBound(
    intent: IntentMandate, cart: CartMandate, execution: ExecutionMandate, accounts: Accounts, now: int,
    categories: seq<string>, fold: string -> string)
    requires var igst := MAX_PAISE * 2800 / BASIS_POINTS;
      var total := MAX_PAISE + igst;
      && cart == CartMandate("29", "07", [CartItem("s", 1, MAX_PAISE, 28, "c")], MAX_PAISE, 0, 0, igst, 0, 0, total, 1)
      && intent == IntentMandate("m", "agent", total, [], now, total)
      && execution == ExecutionMandate("agent", "", "", total, "n", now)
    requires AccountsNamed(accounts)
    ensures CartSchema(cart) && GateAccepts(intent, cart, execution, now, categories, fold)
    ensures var built := BuildSplitManifest(cart, accounts, 0);
            built.Built? && Share(built.manifest, MERCHANT_PURPOSE) > MAX_PAISE
  {
    LargestLineTax(cart.items);
    assert cart.merchantStateCode[0] != cart.buyerDeliveryStateCode[0];
    TcsInUnits(MAX_PAISE, false);
  }

  // ---------------------------------------------------------------- transfer requests

  const MERCHANT_PURPOSE := "merchant_net_settlement"
  const PROTOCOL_PURPOSE := "protocol_fee"
  const LOGISTICS_PURPOSE := "logistics_sla_settlement"
  const TCS_PURPOSE := "tcs_section_52_withholding"

  /** What the manifest assigns to a purpose, and to whom. */
  function Share(m: Manifest, purpose: string): int {
    if purpose == MERCHANT_PURPOSE then m.merchant
    else if purpose == PROTOCOL_PURPOSE then m.protocolFee
    else if purpose == LOGISTICS_PURPOSE then m.logistics
    else if purpose == TCS_PURPOSE then m.tcs
    else 0
  }

  function Payee(m: Manifest, purpose: string): string {
    if purpose == MERCHANT_PURPOSE then m.accounts.merchant
    else if purpose == PROTOCOL_PURPOSE then m.accounts.protocolFee
    else if purpose == LOGISTICS_PURPOSE then m.accounts.logistics
    else m.accounts.tcsHolding
  }

  function Amounts(requests: seq<TransferRequest>): (r: seq<int>)
    ensures |r| == |requests|
  {
    seq(|requests|, i requires 0 <= i < |requests| => requests[i].amount)
  }

  predicate DistinctPurposes(requests: seq<TransferRequest>) {
    forall i, j :: 0 <= i < j < |requests| ==> requests[i].purpose != requests[j].purpose
  }

  /** Each request pays its purpose's share to its purpose's account, and is positive. */
  predicate PaysShares(m: Manifest, paymentId: string, requests: seq<TransferRequest>) {
    forall i :: 0 <= i < |requests| ==>
      var r := requests[i];
      r.amount == Share(m, r.purpose) > 0 && r.account == Payee(m, r.purpose) && r.paymentId == paymentId
  }

  predicate HasPurpose(requests: seq<TransferRequest>, purpose: string) {
    exists i :: 0 <= i < |requests| && requests[i].purpose == purpose
  }

  lemma PurposeAppend(requests: seq<TransferRequest>, r: TransferRequest)
    ensures forall p :: HasPurpose(requests + [r], p) <==> HasPurpose(requests, p) || r.purpose == p
  {
    var after := requests + [r];
    forall p | HasPurpose(requests, p) ensures HasPurpose(after, p) {
      var i :| 0 <= i < |requests| && requests[i].purpose == p;
      assert after[i].purpose == p;
    }
    assert after[|requests|].purpose == r.purpose;
  }

  const PURPOSES: seq<string> := [MERCHANT_PURPOSE, PROTOCOL_PURPOSE, LOGISTICS_PURPOSE, TCS_PURPOSE]

  /** The leg of one purpose, if it has a share. */
  function NextLegs(m: Manifest, paymentId: string, purpose: string): seq<TransferRequest> {
    if Share(m, purpose) > 0 then [TransferRequest(Payee(m, purpose), Share(m, purpose), purpose, paymentId)] else []
  }

  /** One leg for each positive share among the first n purposes, in their order. */
  function LegsTo(m: Manifest, paymentId: string, n: nat): seq<TransferRequest>
    requires n <= |PURPOSES|
  {
    if n == 0 then []
    else LegsTo(m, paymentId, n - 1) + NextLegs(m, paymentId, PURPOSES[n - 1])
  }

  /** The legs that a manifest asks for, in the order in which they are created. */
  function TransferRequests(m: Manifest, paymentId: string): seq<TransferRequest> {
    LegsTo(m, paymentId, |PURPOSES|)
  }

  /** The requests cover the first n purposes: one for each positive share, adding up to these shares. */
  ghost predicate Covers(m: Manifest, paymentId: string, requests: seq<TransferRequest>, n: nat)
    requires n <= |PURPOSES| && Conserves(m)
  {
    && PaysShares(m, paymentId, requests) && DistinctPurposes(requests)
    && HasPurposesTo(m, requests, n)
    && Sum(Amounts(requests)) == SharesTo(m, n)
  }

  ghost predicate HasPurposesTo(m: Manifest, requests: seq<TransferRequest>, n: nat)
    requires n <= |PURPOSES|
  {
    forall p :: HasPurpose(requests, p) <==> p in PURPOSES[..n] && Share(m, p) > 0
  }

  function SharesTo(m: Manifest, n: nat): int
    requires n <= |PURPOSES|
  {
    if n == 0 then 0 else SharesTo(m, n - 1) + Share(m, PURPOSES[n - 1])
  }

  lemma PurposesDiffer(i: nat, j: nat)
    requires i < j < |PURPOSES|
    ensures PURPOSES[i] != PURPOSES[j]
  {
    assert MERCHANT_PURPOSE[0] == 'm' && PROTOCOL_PURPOSE[0] == 'p';
    assert LOGISTICS_PURPOSE[0] == 'l' && TCS_PURPOSE[0] == 't';
  }

  lemma LegAdded(m: Manifest, paymentId: string, requests: seq<TransferRequest>, n: nat, r: TransferRequest)
    requires n < |PURPOSES| && Conserves(m) && Covers(m, paymentId, requests, n)
    requires r == TransferRequest(Payee(m, PURPOSES[n]), r.amount, PURPOSES[n], paymentId)
    requires r.amount == Share(m, PURPOSES[n]) > 0
    ensures Covers(m, paymentId, requests + [r], n + 1)
  {
    AmountAppend(requests, r);
    PurposesAppend(m, requests, n, r);
    NewPurpose(m, requests, n);
  }

  lemma AmountAppend(requests: seq<TransferRequest>, r: TransferRequest)
    ensures Sum(Amounts(requests + [r])) == Sum(Amounts(requests)) + r.amount
  {
    assert Amounts(requests + [r]) == Amounts(requests) + [r.amount];
    SumAppend(Amounts(requests), r.amount);
  }

  lemma PurposesAppend(m: Manifest, requests: seq<TransferRequest>, n: nat, r: TransferRequest)
    requires n < |PURPOSES| && HasPurposesTo(m, requests, n)
    requires r.purpose == PURPOSES[n] && Share(m, PURPOSES[n]) > 0
    ensures HasPurposesTo(m, requests + [r], n + 1)
  {
    PurposeAppend(requests, r);
    assert PURPOSES[..n + 1] == PURPOSES[..n] + [PURPOSES[n]];
  }

  lemma NewPurpose(m: Manifest, requests: seq<TransferRequest>, n: nat)
    requires n < |PURPOSES| && HasPurposesTo(m, requests, n)
    ensures forall i :: 0 <= i < |requests| ==> requests[i].purpose != PURPOSES[n]
  {
    forall i | 0 <= i < |requests| ensures requests[i].purpose != PURPOSES[n] {
      assert HasPurpose(requests, requests[i].purpose);
      var j :| 0 <= j < n && PURPOSES[j] == requests[i].purpose;
      PurposesDiffer(j, n);
    }
  }

  lemma LegSkipped(m: Manifest, paymentId: string, requests: seq<TransferRequest>, n: nat)
    requires n < |PURPOSES| && Conserves(m) && Covers(m, paymentId, requests, n) && Share(m, PURPOSES[n]) == 0
    ensures Covers(m, paymentId, requests, n + 1)
  {
    assert PURPOSES[..n + 1] == PURPOSES[..n] + [PURPOSES[n]];
  }

  lemma NextCovered(m: Manifest, paymentId: string, requests: seq<TransferRequest>, n: nat)
    requires n < |PURPOSES| && Conserves(m) && Covers(m, paymentId, requests, n)
    ensures Covers(m, paymentId, requests + NextLegs(m, paymentId, PURPOSES[n]), n + 1)
  {
    var purpose := PURPOSES[n];
    if Share(m, purpose) > 0 {
      LegAdded(m, paymentId, requests, n, TransferRequest(Payee(m, purpose), Share(m, purpose), purpose, paymentId));
    } else {
      LegSkipped(m, paymentId, requests, n);
      assert requests + [] == requests;
    }
  }

  lemma {:induction false} LegsCover(m: Manifest, paymentId: string, n: nat)
    requires n <= |PURPOSES| && Conserves(m)
    ensures Covers(m, paymentId, LegsTo(m, paymentId, n), n)
  {
    if n > 0 {
      var legs := LegsTo(m, paymentId, n - 1);
      LegsCover(m, paymentId, n - 1);
      NextCovered(m, paymentId, legs, n - 1);
      assert LegsTo(m, paymentId, n) == legs + NextLegs(m, paymentId, PURPOSES[n - 1]);
    }
  }

  /** There is one request for each positive share and no other, and together they ask for the whole total. */
  lemma RequestsCoverManifest(m: Manifest, paymentId: string)
    requires Conserves(m)
    ensures var requests := TransferRequests(m, paymentId);
            && PaysShares(m, paymentId, requests) && DistinctPurposes(requests)
            && (forall p :: HasPurpose(requests, p) <==> Share(m, p) > 0)
            && Sum(Amounts(requests)) == m.total
  {
    LegsCover(m, paymentId, 4);
    SharesOf(m);
    assert SharesTo(m, 4) == SharesTo(m, 3) + m.tcs && SharesTo(m, 3) == SharesTo(m, 2) + m.logistics;
    assert SharesTo(m, 2) == SharesTo(m, 1) + m.protocolFee && SharesTo(m, 1) == m.merchant;
    assert PURPOSES[..4] == PURPOSES;
  }

  lemma SharesOf(m: Manifest)
    ensures Share(m, PURPOSES[0]) == m.merchant && Share(m, PURPOSES[1]) == m.protocolFee
    ensures Share(m, PURPOSES[2]) == m.logistics && Share(m, PURPOSES[3]) == m.tcs
    ensures Payee(m, PURPOSES[0]) == m.accounts.merchant && Payee(m, PURPOSES[1]) == m.accounts.protocolFee
    ensures Payee(m, PURPOSES[2]) == m.accounts.logistics && Payee(m, PURPOSES[3]) == m.accounts.tcsHolding
  {
    PurposesDiffer(0, 1);
    PurposesDiffer(0, 2);
    PurposesDiffer(0, 3);
    PurposesDiffer(1, 2);
    PurposesDiffer(1, 3);
    PurposesDiffer(2, 3);
  }

  /** The requests written out: each account under its own purpose, in this order. */
  lemma RequestsInOrder(m: Manifest, paymentId: string)
    requires Conserves(m)
    ensures TransferRequests(m, paymentId) ==
            [TransferRequest(m.accounts.merchant, m.merchant, "merchant_net_settlement", paymentId)]
            + (if m.protocolFee > 0
               then [TransferRequest(m.accounts.protocolFee, m.protocolFee, "protocol_fee", paymentId)] else [])
            + (if m.logistics > 0
               then [TransferRequest(m.accounts.logistics, m.logistics, "logistics_sla_settlement", paymentId)] else [])
            + (if m.tcs > 0
               then [TransferRequest(m.accounts.tcsHolding, m.tcs, "tcs_section_52_withholding", paymentId)] else [])
  {
    SharesOf(m);
    assert LegsTo(m, paymentId, 0) == [];
    assert LegsTo(m, paymentId, 1) == NextLegs(m, paymentId, PURPOSES[0]);
    assert LegsTo(m, paymentId, 2) == LegsTo(m, paymentId, 1) + NextLegs(m, paymentId, PURPOSES[1]);
    assert LegsTo(m, paymentId, 3) == LegsTo(m, paymentId, 2) + NextLegs(m, paymentId, PURPOSES[2]);
    assert LegsTo(m, paymentId, 4) == LegsTo(m, paymentId, 3) + NextLegs(m, paymentId, PURPOSES[3]);
  }

  /** One request per positive share, so the requests add up to the captured total. */
  method BuildTransferRequests(m: Manifest, paymentId: string) returns (requests: seq<TransferRequest>)
    requires Conserves(m)
    ensures requests == TransferRequests(m, paymentId)
    ensures PaysShares(m, paymentId, requests) && DistinctPurposes(requests)
    ensures forall p :: HasPurpose(requests, p) <==> Share(m, p) > 0
    ensures Sum(Amounts(requests)) == m.total
  {
    SharesOf(m);
    requests := [TransferRequest(m.accounts.merchant, m.merchant, MERCHANT_PURPOSE, paymentId)];
    assert LegsTo(m, paymentId, 0) == [];
    requests := AddLeg(m, paymentId, requests, 1, m.accounts.protocolFee, m.protocolFee, PROTOCOL_PURPOSE);
    requests := AddLeg(m, paymentId, requests, 2, m.accounts.logistics, m.logistics, LOGISTICS_PURPOSE);
    requests := AddLeg(m, paymentId, requests, 3, m.accounts.tcsHolding, m.tcs, TCS_PURPOSE);
    RequestsCoverManifest(m, paymentId);
  }

  /** Appends an optional leg when its amount is positive. */
  method AddLeg(
    ghost m: Manifest, paymentId: string, requests: seq<TransferRequest>, ghost n: nat,
    account: string, amount: int, purpose: string)
    returns (r: seq<TransferRequest>)
    requires n < |PURPOSES| && requests == LegsTo(m, paymentId, n) && amount >= 0
    requires purpose == PURPOSES[n] && amount == Share(m, purpose) && account == Payee(m, purpose)
    ensures r == LegsTo(m, paymentId, n + 1)
    ensures requests <= r
  {
    r := requests;
    if amount > 0 {
      r := r + [TransferRequest(account, amount, purpose, paymentId)];
    }
  }

  // ---------------------------------------------------------------- idempotency keys

  function KeyPrefix(paymentId: string): string {
    "trf_" + paymentId + "_"
  }

  /** `_buildTransferIdempotencyKey`. */
  function TransferKey(r: TransferRequest, paymentId: string): string {
    KeyPrefix(paymentId) + r.account + "_" + r.purpose
  }

  predicate IsLegPurpose(p: string) {
    p == MERCHANT_PURPOSE || p == PROTOCOL_PURPOSE || p == LOGISTICS_PURPOSE || p == TCS_PURPOSE
  }

  /** No leg purpose is the tail of another, so the purpose can be read off the end of a key. */
  lemma PurposesEndApart(p: string, q: string, a: string, b: string)
    requires IsLegPurpose(p) && IsLegPurpose(q) && a + p == b + q
    ensures p == q
  {
    var k := a + p;
    assert k[|k| - 1] == p[|p| - 1] && k[|k| - 1] == q[|q| - 1];
    assert k[|k| - 12] == p[|p| - 12] && k[|k| - 12] == q[|q| - 12];
  }

  /** Distinct legs of one payment have distinct keys, whatever their accounts are called. */
  lemma LegKeysDistinct(r: TransferRequest, s: TransferRequest, paymentId: string)
    requires IsLegPurpose(r.purpose) && IsLegPurpose(s.purpose)
    ensures TransferKey(r, paymentId) == TransferKey(s, paymentId) ==> r.purpose == s.purpose && r.account == s.account
    ensures KeyPrefix(paymentId) <= TransferKey(r, paymentId)
  {
    var p := KeyPrefix(paymentId);
    if TransferKey(r, paymentId) == TransferKey(s, paymentId) {
      PurposesEndApart(r.purpose, s.purpose, p + r.account + "_", p + s.account + "_");
      var n := |TransferKey(r, paymentId)| - |r.purpose| - 1;
      assert TransferKey(r, paymentId)[|p|..n] == r.account && TransferKey(s, paymentId)[|p|..n] == s.account;
    }
  }
}
