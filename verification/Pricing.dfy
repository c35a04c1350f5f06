/** The unit price of a quote: one sale, then four discounts, each on what the one before left (pricingEngine.ts). */
module Pricing {

  const BPS := 10000

  datatype Option<+T> = Some(value: T) | None

  datatype VolumeTier = VolumeTier(minQuantity: int, discountBps: int)

  /** At most one of the three amounts is read, in this order. */
  datatype Promotion = Promotion(
    startsAt: int, endsAt: int, fixedPrice: Option<int>, discountBps: Option<int>, discountPaise: Option<int>)

  datatype PromoCode = PromoCode(code: string, discountBps: int)

  datatype Campaign = Campaign(discountBps: int, cap: Option<int>)

  /** MerchantAuthoredOffers: an absent field means the merchant offers nothing of that kind. */
  datatype Offers = Offers(campaign: Option<Campaign>, cashback: Option<int>, promoCodes: seq<PromoCode>)

  datatype SkuOffers = SkuOffers(campaignBps: int, cap: Option<int>, cashback: int, promoCodes: seq<PromoCode>)

  const FESTIVE_BPS := 1000
  const FESTIVE_CAP := 2000
  const UPI_CASHBACK := 150
  const CORPORATE_CODE := "CORP_5PCT"
  const CORPORATE_BPS := 500

  /** A SKU without authored offers keeps the demo-wide ones. */
  function ResolveSkuOffers(offers: Option<Offers>): SkuOffers {
    match offers
    case None => SkuOffers(FESTIVE_BPS, Some(FESTIVE_CAP), UPI_CASHBACK, [PromoCode(CORPORATE_CODE, CORPORATE_BPS)])
    case Some(o) =>
      SkuOffers(if o.campaign.Some? then o.campaign.value.discountBps else 0,
                if o.campaign.Some? then o.campaign.value.cap else None,
                if o.cashback.Some? then o.cashback.value else 0,
                o.promoCodes)
  }

  // ---------------------------------------------------------------- volume tiers

  /** Stable insertion by descending minimum. */
  function InsertTier(sorted: seq<VolumeTier>, t: VolumeTier): seq<VolumeTier> {
    if |sorted| == 0 then [t]
    else if sorted[0].minQuantity >= t.minQuantity then [sorted[0]] + InsertTier(sorted[1..], t)
    else [t] + sorted
  }

  function SortTiers(tiers: seq<VolumeTier>): seq<VolumeTier> {
    if |tiers| == 0 then [] else InsertTier(SortTiers(tiers[..|tiers| - 1]), tiers[|tiers| - 1])
  }

  function FirstReached(sorted: seq<VolumeTier>, quantity: int): Option<VolumeTier> {
    if |sorted| == 0 then None
    else if quantity >= sorted[0].minQuantity then Some(sorted[0])
    else FirstReached(sorted[1..], quantity)
  }

  function FindMatchingVolumeTier(quantity: int, tiers: seq<VolumeTier>): Option<VolumeTier> {
    FirstReached(SortTiers(tiers), quantity)
  }

  predicate Descending(s: seq<VolumeTier>) {
    forall i, j :: 0 <= i < j < |s| ==> s[i].minQuantity >= s[j].minQuantity
  }

  lemma {:induction false} InsertKeepsOrder(s: seq<VolumeTier>, t: VolumeTier)
    requires Descending(s)
    ensures Descending(InsertTier(s, t))
    ensures forall x :: x in InsertTier(s, t) <==> x in s || x == t
  {
    if |s| > 0 && s[0].minQuantity >= t.minQuantity {
      InsertKeepsOrder(s[1..], t);
      var rest := InsertTier(s[1..], t);
      assert s == [s[0]] + s[1..];
      forall i | 0 <= i < |rest| ensures s[0].minQuantity >= rest[i].minQuantity {
        assert rest[i] in rest;
      }
    }
  }

  /** Inserting changes the first reached tier only when the new one is reached and strictly larger. */
  lemma {:induction false} InsertReached(s: seq<VolumeTier>, t: VolumeTier, quantity: int)
    requires Descending(s)
    ensures var before := FirstReached(s, quantity);
            FirstReached(InsertTier(s, t), quantity) ==
              if quantity >= t.minQuantity && (before.None? || before.value.minQuantity < t.minQuantity) then Some(t)
              else before
  {
    if |s| > 0 {
      FirstReachedMember(s, quantity);
      if s[0].minQuantity >= t.minQuantity {
        InsertReached(s[1..], t, quantity);
        assert InsertTier(s, t)[1..] == InsertTier(s[1..], t);
        FirstReachedMember(s[1..], quantity);
      } else {
        assert ([t] + s)[1..] == s;
      }
    }
  }

  lemma {:induction false} FirstReachedMember(s: seq<VolumeTier>, quantity: int)
    requires Descending(s)
    ensures var r := FirstReached(s, quantity);
            r.Some? ==> r.value in s && quantity >= r.value.minQuantity
  {
    if |s| > 0 {
      FirstReachedMember(s[1..], quantity);
    }
  }

  lemma {:induction false} TiersSorted(tiers: seq<VolumeTier>)
    ensures Descending(SortTiers(tiers))
  {
    if |tiers| > 0 {
      TiersSorted(tiers[..|tiers| - 1]);
      InsertKeepsOrder(SortTiers(tiers[..|tiers| - 1]), tiers[|tiers| - 1]);
    }
  }

  /** The tier at index i is the one with the largest minimum reached, the first of equals. */
  predicate IsBestTier(tiers: seq<VolumeTier>, quantity: int, i: nat) {
    && i < |tiers| && tiers[i].minQuantity <= quantity
    && forall j :: 0 <= j < |tiers| && tiers[j].minQuantity <= quantity ==>
         tiers[j].minQuantity < tiers[i].minQuantity || (tiers[j].minQuantity == tiers[i].minQuantity && i <= j)
  }

  lemma {:induction false} MatchesBestTier(quantity: int, tiers: seq<VolumeTier>)
    ensures var r := FindMatchingVolumeTier(quantity, tiers);
            if r.None? then forall j :: 0 <= j < |tiers| ==> tiers[j].minQuantity > quantity
            else exists i: nat :: IsBestTier(tiers, quantity, i) && tiers[i] == r.value
  {
    if |tiers| > 0 {
      var n := |tiers| - 1;
      var rest, t := tiers[..n], tiers[n];
      MatchesBestTier(quantity, rest);
      TiersSorted(rest);
      InsertReached(SortTiers(rest), t, quantity);
      var before := FindMatchingVolumeTier(quantity, rest);
      if before.Some? {
        var i: nat :| IsBestTier(rest, quantity, i) && rest[i] == before.value;
        BestOfMore(quantity, tiers, i);
      } else {
        NoneReachedBefore(quantity, tiers);
      }
    }
  }

  lemma NoneReachedBefore(quantity: int, tiers: seq<VolumeTier>)
    requires |tiers| > 0
    requires var rest := tiers[..|tiers| - 1]; forall j :: 0 <= j < |rest| ==> rest[j].minQuantity > quantity
    ensures var n := |tiers| - 1;
            if tiers[n].minQuantity <= quantity then IsBestTier(tiers, quantity, n)
            else forall j :: 0 <= j < |tiers| ==> tiers[j].minQuantity > quantity
  {
    var n := |tiers| - 1;
    assert forall j :: 0 <= j < n ==> tiers[j] == tiers[..n][j];
  }

  /** The best tier stays the best unless the one added last is reached and larger. */
  lemma BestOfMore(quantity: int, tiers: seq<VolumeTier>, i: nat)
    requires |tiers| > 0 && IsBestTier(tiers[..|tiers| - 1], quantity, i)
    ensures var n := |tiers| - 1;
            if tiers[n].minQuantity > tiers[i].minQuantity && tiers[n].minQuantity <= quantity
            then IsBestTier(tiers, quantity, n) else IsBestTier(tiers, quantity, i)
  {
    var n := |tiers| - 1;
    assert forall j :: 0 <= j < n ==> tiers[..n][j] == tiers[j];
  }

  // ---------------------------------------------------------------- scheduled sales

  function PromotionUnitPrice(base: int, p: Promotion): int {
    if p.fixedPrice.Some? then p.fixedPrice.value
    else if p.discountBps.Some? then base * (BPS - p.discountBps.value) / BPS
    else if p.discountPaise.Some? then if base - p.discountPaise.value > 0 then base - p.discountPaise.value else 0
    else base
  }

  /** A record that the evaluator does not throw on: a real window, and not dearer than the list price. */
  predicate SaleValid(base: int, p: Promotion) {
    p.endsAt > p.startsAt && PromotionUnitPrice(base, p) <= base
  }

  predicate AllValid(base: int, promotions: seq<Promotion>) {
    forall i :: 0 <= i < |promotions| ==> SaleValid(base, promotions[i])
  }

  predicate Open(p: Promotion, now: int) {
    p.startsAt <= now < p.endsAt
  }

  predicate Upcoming(p: Promotion, now: int) {
    p.startsAt > now
  }

  datatype Evaluated = Evaluated(promotion: Promotion, expectedPrice: int)

  datatype Evaluation = Evaluations(active: seq<Evaluated>, upcoming: seq<Evaluated>) | ArithmeticDrift

  predicate IsEvaluationOf(e: Evaluated, base: int, promotions: seq<Promotion>) {
    e.promotion in promotions && e.expectedPrice == PromotionUnitPrice(base, e.promotion)
  }

  /** The sales open at `now` among the first k, in order. */
  function OpenTo(base: int, promotions: seq<Promotion>, now: int, k: nat): seq<Evaluated>
    requires k <= |promotions|
  {
    if k == 0 then []
    else
      var p := promotions[k - 1];
      OpenTo(base, promotions, now, k - 1) + (if Open(p, now) then [Evaluated(p, PromotionUnitPrice(base, p))] else [])
  }

  function UpcomingTo(base: int, promotions: seq<Promotion>, now: int, k: nat): seq<Evaluated>
    requires k <= |promotions|
  {
    if k == 0 then []
    else
      var p := promotions[k - 1];
      UpcomingTo(base, promotions, now, k - 1)
      + (if Upcoming(p, now) then [Evaluated(p, PromotionUnitPrice(base, p))] else [])
  }

  /** A sale is listed as active, or as upcoming, exactly when it is, and always at its own expected price. */
  lemma {:induction false} ListedExactly(base: int, promotions: seq<Promotion>, now: int, k: nat)
    requires k <= |promotions|
    ensures forall e :: e in OpenTo(base, promotions, now, k) <==>
      IsEvaluationOf(e, base, promotions[..k]) && Open(e.promotion, now)
    ensures forall e :: e in UpcomingTo(base, promotions, now, k) <==>
      IsEvaluationOf(e, base, promotions[..k]) && Upcoming(e.promotion, now)
  {
    if k > 0 {
      ListedExactly(base, promotions, now, k - 1);
      assert promotions[..k] == promotions[..k - 1] + [promotions[k - 1]];
    }
  }

  /** One malformed record fails the whole evaluation. */
  method EvaluateScheduledPromotions(base: int, promotions: seq<Promotion>, now: int) returns (r: Evaluation)
    ensures r == if AllValid(base, promotions)
                 then Evaluations(OpenTo(base, promotions, now, |promotions|),
                                  UpcomingTo(base, promotions, now, |promotions|))
                 else ArithmeticDrift
    ensures r.ArithmeticDrift? <==>
      exists p :: p in promotions && (p.endsAt <= p.startsAt || PromotionUnitPrice(base, p) > base)
    ensures r.Evaluations? ==> forall p :: p in promotions ==>
      var e := Evaluated(p, PromotionUnitPrice(base, p));
      (e in r.active <==> p.startsAt <= now < p.endsAt) && (e in r.upcoming <==> now < p.startsAt)
  {
    var active: seq<Evaluated>, upcoming: seq<Evaluated> := [], [];
    for i := 0 to |promotions|
      invariant forall j :: 0 <= j < i ==> SaleValid(base, promotions[j])
      invariant active == OpenTo(base, promotions, now, i) && upcoming == UpcomingTo(base, promotions, now, i)
    {
      var p := promotions[i];
      if p.endsAt <= p.startsAt {
        return ArithmeticDrift;
      }
      var evaluated := Evaluated(p, PromotionUnitPrice(base, p));
      if base - evaluated.expectedPrice < 0 {
        return ArithmeticDrift;
      }
      if p.startsAt <= now && now < p.endsAt {
        active := active + [evaluated];
      } else if p.startsAt > now {
        upcoming := upcoming + [evaluated];
      }
    }
    ListedExactly(base, promotions, now, |promotions|);
    assert promotions[..|promotions|] == promotions;
    return Evaluations(active, upcoming);
  }

  /** The lowest price any open sale offers, or the list price. */
  function DeepestPrice(base: int, promotions: seq<Promotion>, now: int): int {
    if |promotions| == 0 then base
    else
      var rest, p := DeepestPrice(base, promotions[..|promotions| - 1], now), promotions[|promotions| - 1];
      if Open(p, now) && PromotionUnitPrice(base, p) < rest then PromotionUnitPrice(base, p) else rest
  }

  lemma {:induction false} DeepestIsLowest(base: int, promotions: seq<Promotion>, now: int)
    ensures var d := DeepestPrice(base, promotions, now);
            && d <= base
            && (forall p :: p in promotions && Open(p, now) ==> d <= PromotionUnitPrice(base, p))
            && (d == base || exists p :: p in promotions && Open(p, now) && d == PromotionUnitPrice(base, p))
  {
    if |promotions| > 0 {
      var rest := promotions[..|promotions| - 1];
      DeepestIsLowest(base, rest, now);
      assert promotions == rest + [promotions[|promotions| - 1]];
    }
  }

  // ---------------------------------------------------------------- the five steps

  datatype Kind = ScheduledSale | VolumeTierDiscount | CampaignDiscount | PaymentRail | PromoCodeDiscount

  datatype Discount = Discount(kind: Kind, paise: int)

  function LessIfPositive(price: int, discount: int): int {
    if discount > 0 then price - discount else price
  }

  function PercentOff(price: int, bps: int): int {
    if bps <= 0 then price else LessIfPositive(price, price * bps / BPS)
  }

  function AfterTier(price: int, quantity: int, tiers: seq<VolumeTier>): int {
    var t := FindMatchingVolumeTier(quantity, tiers);
    if t.None? then price else PercentOff(price, t.value.discountBps)
  }

  function AfterCampaign(price: int, o: SkuOffers): int {
    if o.campaignBps <= 0 then price
    else
      var uncapped := price * o.campaignBps / BPS;
      LessIfPositive(price, if o.cap.None? || uncapped <= o.cap.value then uncapped else o.cap.value)
  }

  function AfterCashback(price: int, o: SkuOffers): int {
    LessIfPositive(price, if price < o.cashback then price else o.cashback)
  }

  /** `normal` is `trim().toUpperCase()`. */
  function FindCode(codes: seq<PromoCode>, wanted: string, normal: string -> string): Option<PromoCode> {
    if |codes| == 0 then None
    else if normal(codes[0].code) == wanted then Some(codes[0])
    else FindCode(codes[1..], wanted, normal)
  }

  /** The empty code stands for no code at all. */
  function AfterPromoCode(price: int, promoCode: string, o: SkuOffers, normal: string -> string): int {
    if promoCode == "" then price
    else
      var c := FindCode(o.promoCodes, normal(promoCode), normal);
      if c.None? then price else PercentOff(price, c.value.discountBps)
  }

  /** What the sale leaves: a malformed record costs every sale its discount. */
  function AfterSale(base: int, promotions: seq<Promotion>, now: int): int {
    if AllValid(base, promotions) then DeepestPrice(base, promotions, now) else base
  }

  datatype Terms = Terms(
    quantity: int, tiers: seq<VolumeTier>, promoCode: string, offers: Option<Offers>, normal: string -> string)

  /** The four steps after the sale. */
  function AfterDiscounts(price: int, t: Terms): int {
    var o := ResolveSkuOffers(t.offers);
    var p1 := AfterTier(price, t.quantity, t.tiers);
    var p2 := AfterCampaign(p1, o);
    var p3 := AfterCashback(p2, o);
    AfterPromoCode(p3, t.promoCode, o, t.normal)
  }

  function StackPrice(base: int, t: Terms, promotions: seq<Promotion>, now: int): int {
    AfterDiscounts(AfterSale(base, promotions, now), t)
  }

  function OfferedPrice(base: int, t: Terms, promotions: seq<Promotion>, now: int): int {
    var p := StackPrice(base, t, promotions, now);
    if p > 0 then p else 0
  }

  function Total(discounts: seq<Discount>): int {
    if |discounts| == 0 then 0 else Total(discounts[..|discounts| - 1]) + discounts[|discounts| - 1].paise
  }

  /** A step lists exactly what it took off, and nothing when it took off nothing. */
  function Listed(kind: Kind, before: int, after: int): seq<Discount> {
    if after < before then [Discount(kind, before - after)] else []
  }

  lemma TotalListed(applied: seq<Discount>, kind: Kind, before: int, after: int)
    requires after <= before
    ensures Total(applied + Listed(kind, before, after)) == Total(applied) + before - after
  {
    var listed := Listed(kind, before, after);
    if after < before {
      assert (applied + listed)[..|applied + listed| - 1] == applied;
    } else {
      assert applied + listed == applied;
    }
  }

  method ApplyPercent(price: int, bps: int, kind: Kind, applied: seq<Discount>) returns (after: int, list: seq<Discount>)
    ensures after == PercentOff(price, bps) <= price && list == applied + Listed(kind, price, after)
  {
    if bps <= 0 {
      return price, applied + [];
    }
    var discount := price * bps / BPS;
    if discount <= 0 {
      return price, applied + [];
    }
    return price - discount, applied + [Discount(kind, discount)];
  }

  method ApplyScheduledPromotionStep(base: int, promotions: seq<Promotion>, now: int, applied: seq<Discount>)
    returns (after: int, list: seq<Discount>)
    ensures after == AfterSale(base, promotions, now) <= base && list == applied + Listed(ScheduledSale, base, after)
  {
    DeepestIsLowest(base, promotions, now);
    after, list := base, applied + [];
    var evaluation := EvaluateScheduledPromotions(base, promotions, now);
    if evaluation.ArithmeticDrift? {
      return;
    }
    var best := base;
    for i := 0 to |evaluation.active|
      invariant best <= base
      invariant forall j :: 0 <= j < i ==> best <= evaluation.active[j].expectedPrice
      invariant best == base || exists j :: 0 <= j < i && best == evaluation.active[j].expectedPrice
    {
      if evaluation.active[i].expectedPrice < best {
        best := evaluation.active[i].expectedPrice;
      }
    }
    ListedExactly(base, promotions, now, |promotions|);
    assert promotions[..|promotions|] == promotions;
    DeepestFound(base, promotions, now, evaluation.active, best);
    var discount := base - best;
    if discount > 0 {
      after, list := best, applied + [Discount(ScheduledSale, discount)];
    }
  }

  /** The lowest expected price of the open sales is the price of the deepest sale. */
  lemma DeepestFound(base: int, promotions: seq<Promotion>, now: int, active: seq<Evaluated>, best: int)
    requires forall e :: e in active <==> IsEvaluationOf(e, base, promotions) && Open(e.promotion, now)
    requires best <= base && forall j :: 0 <= j < |active| ==> best <= active[j].expectedPrice
    requires best == base || exists j :: 0 <= j < |active| && best == active[j].expectedPrice
    ensures best == DeepestPrice(base, promotions, now)
  {
    DeepestIsLowest(base, promotions, now);
    var d := DeepestPrice(base, promotions, now);
    if d != base {
      var p :| p in promotions && Open(p, now) && d == PromotionUnitPrice(base, p);
      assert Evaluated(p, d) in active;
      var j :| 0 <= j < |active| && active[j] == Evaluated(p, d);
    }
    if best != base {
      var j :| 0 <= j < |active| && best == active[j].expectedPrice;
      assert active[j] in active;
    }
  }

  /** The discounts in the order of the steps, each under its own kind. */
  function Itemised(base: int, t: Terms, promotions: seq<Promotion>, now: int): seq<Discount> {
    var o := ResolveSkuOffers(t.offers);
    var p0 := AfterSale(base, promotions, now);
    var p1 := AfterTier(p0, t.quantity, t.tiers);
    var p2 := AfterCampaign(p1, o);
    var p3 := AfterCashback(p2, o);
    Listed(ScheduledSale, base, p0)
    + Listed(VolumeTierDiscount, p0, p1)
    + Listed(CampaignDiscount, p1, p2)
    + Listed(PaymentRail, p2, p3)
    + Listed(PromoCodeDiscount, p3, AfterPromoCode(p3, t.promoCode, o, t.normal))
  }

  datatype Stack = Stacked(offered: int, applied: seq<Discount>, totalSavings: int) | StackDrift

  /** `computeAutoDiscountStack`. */
  method ComputeAutoDiscountStack(base: int, t: Terms, promotions: seq<Promotion>, now: int) returns (r: Stack)
    ensures r.StackDrift? <==> base < 0 || t.quantity < 1
    ensures r.Stacked? ==>
      && r.offered == OfferedPrice(base, t, promotions, now)
      && Total(r.applied) == base - StackPrice(base, t, promotions, now)
      && (forall i :: 0 <= i < |r.applied| ==> r.applied[i].paise > 0)
      && r.totalSavings == (base - r.offered) * t.quantity
      && r.applied == Itemised(base, t, promotions, now)
  {
    if base < 0 || t.quantity < 1 {
      return StackDrift;
    }
    var o := ResolveSkuOffers(t.offers);
    var none: seq<Discount> := [];
    var price, applied := ApplyScheduledPromotionStep(base, promotions, now, none);
    TotalListed(none, ScheduledSale, base, price);
    assert applied == Listed(ScheduledSale, base, price);
    price, applied := ApplyVolumeTierDiscountStep(price, t, applied);
    price, applied := ApplyCampaignDiscountStep(price, o, applied);
    price, applied := ApplyPaymentRailDiscountStep(price, o, applied);
    price, applied := ApplyPromoCodeDiscountStep(price, t.promoCode, o, t.normal, applied);
    var offered := if price > 0 then price else 0;
    return Stacked(offered, applied, (base - offered) * t.quantity);
  }

  predicate AllPositive(applied: seq<Discount>) {
    forall i :: 0 <= i < |applied| ==> applied[i].paise > 0
  }

  method ApplyVolumeTierDiscountStep(price: int, t: Terms, applied: seq<Discount>)
    returns (after: int, list: seq<Discount>)
    requires AllPositive(applied)
    ensures after == AfterTier(price, t.quantity, t.tiers) <= price && AllPositive(list)
    ensures list == applied + Listed(VolumeTierDiscount, price, after) && Total(list) == Total(applied) + price - after
  {
    var tier := FindMatchingVolumeTier(t.quantity, t.tiers);
    if tier.None? {
      after, list := price, applied + [];
    } else {
      after, list := ApplyPercent(price, tier.value.discountBps, VolumeTierDiscount, applied);
    }
    TotalListed(applied, VolumeTierDiscount, price, after);
  }

  method ApplyCampaignDiscountStep(price: int, o: SkuOffers, applied: seq<Discount>)
    returns (after: int, list: seq<Discount>)
    requires AllPositive(applied)
    ensures after == AfterCampaign(price, o) <= price && AllPositive(list)
    ensures list == applied + Listed(CampaignDiscount, price, after) && Total(list) == Total(applied) + price - after
  {
    after, list := price, applied + [];
    if o.campaignBps > 0 {
      var uncapped := price * o.campaignBps / BPS;
      var discount := if o.cap.None? || uncapped <= o.cap.value then uncapped else o.cap.value;
      if discount > 0 {
        after, list := price - discount, applied + [Discount(CampaignDiscount, discount)];
      }
    }
    TotalListed(applied, CampaignDiscount, price, after);
  }

  method ApplyPaymentRailDiscountStep(price: int, o: SkuOffers, applied: seq<Discount>)
    returns (after: int, list: seq<Discount>)
    requires AllPositive(applied)
    ensures after == AfterCashback(price, o) <= price && AllPositive(list)
    ensures list == applied + Listed(PaymentRail, price, after) && Total(list) == Total(applied) + price - after
  {
    after, list := price, applied + [];
    var discount := if price < o.cashback then price else o.cashback;
    if discount > 0 {
      after, list := price - discount, applied + [Discount(PaymentRail, discount)];
    }
    TotalListed(applied, PaymentRail, price, after);
  }

  method ApplyPromoCodeDiscountStep(
    price: int, promoCode: string, o: SkuOffers, normal: string -> string, applied: seq<Discount>)
    returns (after: int, list: seq<Discount>)
    requires AllPositive(applied)
    ensures after == AfterPromoCode(price, promoCode, o, normal) <= price && AllPositive(list)
    ensures list == applied + Listed(PromoCodeDiscount, price, after) && Total(list) == Total(applied) + price - after
  {
    var matched := if promoCode == "" then None else FindCode(o.promoCodes, normal(promoCode), normal);
    if matched.None? {
      after, list := price, applied + [];
    } else {
      after, list := ApplyPercent(price, matched.value.discountBps, PromoCodeDiscount, applied);
    }
    TotalListed(applied, PromoCodeDiscount, price, after);
  }

  // ---------------------------------------------------------------- what the waterfall guarantees

  predicate Percent(bps: int) {
    0 <= bps <= BPS
  }

  predicate SaneOffers(o: SkuOffers) {
    && Percent(o.campaignBps) && (o.cap.Some? ==> o.cap.value >= 0) && o.cashback >= 0
    && forall i :: 0 <= i < |o.promoCodes| ==> Percent(o.promoCodes[i].discountBps)
  }

  predicate SaneTerms(t: Terms) {
    && SaneOffers(ResolveSkuOffers(t.offers))
    && forall i :: 0 <= i < |t.tiers| ==> Percent(t.tiers[i].discountBps)
  }

  /** A percentage of at most the whole grows no faster than the price. */
  lemma ShareGrowsSlowly(p: nat, q: nat, bps: int)
    requires p <= q && Percent(bps)
    ensures 0 <= p * bps / BPS <= q * bps / BPS <= p * bps / BPS + (q - p)
    ensures p * bps / BPS <= p
  {
    var d := q - p;
    assert q * bps == p * bps + d * bps;
    assert 0 <= d * bps <= d * BPS && 0 <= p * bps <= p * BPS;
  }

  lemma PercentMonotone(p: nat, q: nat, bps: int)
    requires p <= q && Percent(bps)
    ensures 0 <= PercentOff(p, bps) <= PercentOff(q, bps)
  {
    ShareGrowsSlowly(p, q, bps);
  }

  lemma CampaignMonotone(p: nat, q: nat, o: SkuOffers)
    requires p <= q && SaneOffers(o)
    ensures 0 <= AfterCampaign(p, o) <= AfterCampaign(q, o)
  {
    ShareGrowsSlowly(p, q, o.campaignBps);
  }

  lemma {:induction false} FoundCodeListed(codes: seq<PromoCode>, wanted: string, normal: string -> string)
    ensures var c := FindCode(codes, wanted, normal);
            if c.Some? then c.value in codes && normal(c.value.code) == wanted
            else forall i :: 0 <= i < |codes| ==> normal(codes[i].code) != wanted
  {
    if |codes| > 0 {
      FoundCodeListed(codes[1..], wanted, normal);
    }
  }

  lemma TierMonotone(p: nat, q: nat, quantity: int, tiers: seq<VolumeTier>)
    requires p <= q && forall i :: 0 <= i < |tiers| ==> Percent(tiers[i].discountBps)
    ensures 0 <= AfterTier(p, quantity, tiers) <= AfterTier(q, quantity, tiers)
  {
    MatchesBestTier(quantity, tiers);
    var t := FindMatchingVolumeTier(quantity, tiers);
    if t.Some? {
      PercentMonotone(p, q, t.value.discountBps);
    }
  }

  lemma PromoCodeMonotone(p: nat, q: nat, promoCode: string, o: SkuOffers, normal: string -> string)
    requires p <= q && SaneOffers(o)
    ensures 0 <= AfterPromoCode(p, promoCode, o, normal) <= AfterPromoCode(q, promoCode, o, normal)
  {
    FoundCodeListed(o.promoCodes, normal(promoCode), normal);
    var c := FindCode(o.promoCodes, normal(promoCode), normal);
    if c.Some? {
      PercentMonotone(p, q, c.value.discountBps);
    }
  }

  /** A lower price going in never becomes a higher price coming out. */
  lemma DiscountsMonotone(p: nat, q: nat, t: Terms)
    requires p <= q && SaneTerms(t)
    ensures 0 <= AfterDiscounts(p, t) <= AfterDiscounts(q, t)
  {
    var o := ResolveSkuOffers(t.offers);
    TierMonotone(p, q, t.quantity, t.tiers);
    var p1, q1 := AfterTier(p, t.quantity, t.tiers), AfterTier(q, t.quantity, t.tiers);
    CampaignMonotone(p1, q1, o);
    var p2, q2 := AfterCampaign(p1, o), AfterCampaign(q1, o);
    var p3, q3 := AfterCashback(p2, o), AfterCashback(q2, o);
    PromoCodeMonotone(p3, q3, t.promoCode, o, t.normal);
  }

  /** No step ever raises a price, sane or not. */
  lemma DiscountsOnlyLower(price: int, t: Terms)
    ensures AfterDiscounts(price, t) <= price
  {
  }

  /** Sale records that charge no negative price. */
  predicate SanePromotion(base: int, p: Promotion) {
    PromotionUnitPrice(base, p) >= 0
  }

  lemma SalePriceSane(base: nat, promotions: seq<Promotion>, now: int)
    requires forall i :: 0 <= i < |promotions| ==> SanePromotion(base, promotions[i])
    ensures 0 <= AfterSale(base, promotions, now) <= base
  {
    DeepestIsLowest(base, promotions, now);
  }

  /** The listed discounts sum to base minus offered exactly when the waterfall does not end below zero. */
  lemma DiscountsAddUp(base: nat, t: Terms, promotions: seq<Promotion>, now: int)
    ensures var taken := base - StackPrice(base, t, promotions, now);
            taken == base - OfferedPrice(base, t, promotions, now) <==> StackPrice(base, t, promotions, now) >= 0
    ensures SaneTerms(t) && (forall i :: 0 <= i < |promotions| ==> SanePromotion(base, promotions[i])) ==>
            StackPrice(base, t, promotions, now) >= 0
  {
    if SaneTerms(t) && (forall i :: 0 <= i < |promotions| ==> SanePromotion(base, promotions[i])) {
      SalePriceSane(base, promotions, now);
      var p := AfterSale(base, promotions, now);
      DiscountsMonotone(p, p, t);
    }
  }

  /** The sale list with one more record at position i. */
  function Inserted(promotions: seq<Promotion>, i: nat, p: Promotion): seq<Promotion>
    requires i <= |promotions|
  {
    promotions[..i] + [p] + promotions[i..]
  }

  lemma InsertedHolds(promotions: seq<Promotion>, i: nat, p: Promotion, base: int)
    requires i <= |promotions|
    ensures forall q :: q in Inserted(promotions, i, p) <==> q == p || q in promotions
    ensures AllValid(base, Inserted(promotions, i, p)) <==> AllValid(base, promotions) && SaleValid(base, p)
  {
    var all := Inserted(promotions, i, p);
    assert promotions == promotions[..i] + promotions[i..];
    assert AllValid(base, all) <==> forall q :: q in all ==> SaleValid(base, q);
    assert AllValid(base, promotions) <==> forall q :: q in promotions ==> SaleValid(base, q);
  }

  /** One more record only deepens the deepest sale, wherever it is put. */
  lemma InsertedDeepens(base: int, promotions: seq<Promotion>, i: nat, p: Promotion, now: int)
    requires i <= |promotions|
    ensures DeepestPrice(base, Inserted(promotions, i, p), now) <= DeepestPrice(base, promotions, now)
  {
    InsertedHolds(promotions, i, p, base);
    DeepestIsLowest(base, promotions, now);
    DeepestIsLowest(base, Inserted(promotions, i, p), now);
  }

  /**
   * A sale record added anywhere in the list never raises the price if it is well formed; if it is malformed,
   * all sales are lost.
   */
  lemma AddingSale(base: nat, t: Terms, promotions: seq<Promotion>, i: nat, p: Promotion, now: int)
    requires SaneTerms(t) && i <= |promotions|
    requires SanePromotion(base, p) && forall j :: 0 <= j < |promotions| ==> SanePromotion(base, promotions[j])
    ensures var added := OfferedPrice(base, t, Inserted(promotions, i, p), now);
            if SaleValid(base, p) then added <= OfferedPrice(base, t, promotions, now)
            else added == OfferedPrice(base, t, [], now) >= OfferedPrice(base, t, promotions, now)
  {
    var all := Inserted(promotions, i, p);
    InsertedHolds(promotions, i, p, base);
    InsertedDeepens(base, promotions, i, p, now);
    SalePriceSane(base, promotions, now);
    SalePriceSane(base, all, now);
    if SaleValid(base, p) {
      DiscountsMonotone(AfterSale(base, all, now), AfterSale(base, promotions, now), t);
    } else {
      DiscountsMonotone(AfterSale(base, promotions, now), base, t);
    }
  }

  /** A SKU with no other discount than its sales. */
  predicate SalesOnly(t: Terms) {
    t.tiers == [] && t.promoCode == "" && t.offers == Some(Offers(None, None, []))
  }

  lemma SalesOnlyPrice(base: nat, t: Terms, promotions: seq<Promotion>, now: int)
    requires SalesOnly(t)
    ensures StackPrice(base, t, promotions, now) == AfterSale(base, promotions, now)
  {
  }

  /** Where sales are the only discount, a malformed record raises the price exactly when a sale was running. */
  lemma MalformedSaleRaises(base: nat, t: Terms, promotions: seq<Promotion>, i: nat, p: Promotion, now: int)
    requires SalesOnly(t) && i <= |promotions| && base > 0
    requires AllValid(base, promotions) && !SaleValid(base, p)
    ensures OfferedPrice(base, t, Inserted(promotions, i, p), now) > OfferedPrice(base, t, promotions, now) <==>
            exists q :: q in promotions && Open(q, now) && PromotionUnitPrice(base, q) < base
  {
    InsertedHolds(promotions, i, p, base);
    SalesOnlyPrice(base, t, promotions, now);
    SalesOnlyPrice(base, t, Inserted(promotions, i, p), now);
    DeepestIsLowest(base, promotions, now);
  }

  /**
   * The expected price listed for a sale while it was upcoming is kept once it opens: the final price is at
   * most that price, whatever the other terms are, unless the record names a negative price.
   */
  lemma AdvertisedPriceKept(
    base: nat, t: Terms, promotions: seq<Promotion>, e: Evaluated, advertisedAt: int, now: int)
    requires AllValid(base, promotions) && e in UpcomingTo(base, promotions, advertisedAt, |promotions|)
    requires Open(e.promotion, now)
    ensures OfferedPrice(base, t, promotions, now) <= e.expectedPrice <==> e.expectedPrice >= 0
  {
    ListedExactly(base, promotions, advertisedAt, |promotions|);
    assert promotions[..|promotions|] == promotions;
    DeepestIsLowest(base, promotions, now);
    DiscountsOnlyLower(AfterSale(base, promotions, now), t);
  }

  // ---------------------------------------------------------------- the price in plain arithmetic

  /** What a sale record asks: its fixed price, else a percentage off, else an amount off down to nothing. */
  lemma SaleInNumbers(base: int, p: Promotion)
    ensures p.fixedPrice.Some? ==> PromotionUnitPrice(base, p) == p.fixedPrice.value
    ensures p.fixedPrice.None? && p.discountBps.Some? ==>
      PromotionUnitPrice(base, p) == base * (10000 - p.discountBps.value) / 10000
    ensures p.fixedPrice.None? && p.discountBps.None? && p.discountPaise.Some? ==>
      var left := base - p.discountPaise.value; PromotionUnitPrice(base, p) == if left > 0 then left else 0
    ensures p.fixedPrice.None? && p.discountBps.None? && p.discountPaise.None? ==> PromotionUnitPrice(base, p) == base
  {
  }

  /** The percentage of the code that the buyer gave, if the merchant offers it. */
  function CodeBps(t: Terms): int {
    var c := if t.promoCode == "" then None
             else FindCode(ResolveSkuOffers(t.offers).promoCodes, t.normal(t.promoCode), t.normal);
    if c.Some? then c.value.discountBps else 0
  }

  /** A code that appears once among the offers, up to normalisation, is the one that is found. */
  lemma {:induction false} OnlyCodeFound(codes: seq<PromoCode>, wanted: string, normal: string -> string, i: nat)
    requires i < |codes| && normal(codes[i].code) == wanted
    requires forall j :: 0 <= j < i ==> normal(codes[j].code) != wanted
    ensures FindCode(codes, wanted, normal) == Some(codes[i])
  {
    if i > 0 {
      OnlyCodeFound(codes[1..], wanted, normal, i - 1);
    }
  }

  function TierBps(t: Terms): int {
    var tier := FindMatchingVolumeTier(t.quantity, t.tiers);
    if tier.Some? then tier.value.discountBps else 0
  }

  lemma PercentInNumbers(price: nat, bps: int)
    requires Percent(bps)
    ensures PercentOff(price, bps) == price - price * bps / 10000 >= 0
  {
    ShareGrowsSlowly(price, price, bps);
  }

  lemma CampaignInNumbers(price: nat, o: SkuOffers)
    requires SaneOffers(o)
    ensures var uncapped := price * o.campaignBps / 10000;
            AfterCampaign(price, o) ==
              price - (if o.cap.Some? && o.cap.value < uncapped then o.cap.value else uncapped)
    ensures AfterCampaign(price, o) >= 0
  {
    ShareGrowsSlowly(price, price, o.campaignBps);
  }

  /**
   * The four discounts in their order, each taken off what the one before left: the tier's percentage, the
   * campaign's up to its cap, the cashback up to the price, the code's percentage.
   */
  lemma WaterfallInNumbers(price: nat, t: Terms)
    requires SaneTerms(t)
    ensures var o := ResolveSkuOffers(t.offers);
            var p1 := price - price * TierBps(t) / 10000;
            var uncapped := p1 * o.campaignBps / 10000;
            var p2 := p1 - (if o.cap.Some? && o.cap.value < uncapped then o.cap.value else uncapped);
            var p3 := p2 - (if p2 < o.cashback then p2 else o.cashback);
            AfterDiscounts(price, t) == p3 - p3 * CodeBps(t) / 10000
  {
    var o := ResolveSkuOffers(t.offers);
    MatchesBestTier(t.quantity, t.tiers);
    PercentInNumbers(price, TierBps(t));
    var p1 := AfterTier(price, t.quantity, t.tiers);
    CampaignInNumbers(p1, o);
    var p2 := AfterCampaign(p1, o);
    var p3 := AfterCashback(p2, o);
    FoundCodeListed(o.promoCodes, t.normal(t.promoCode), t.normal);
    PercentInNumbers(p3, CodeBps(t));
  }

  /** Without offers of its own a SKU has 10 percent off up to 2000 paise, 150 paise back and one code for 5 percent. */
  lemma DefaultOffers(t: Terms)
    requires t.offers.None?
    ensures ResolveSkuOffers(t.offers) == SkuOffers(1000, Some(2000), 150, [PromoCode("CORP_5PCT", 500)])
    ensures t.promoCode != "" && t.normal(t.promoCode) == t.normal("CORP_5PCT") ==> CodeBps(t) == 500
  {
  }

  /** With offers of its own only what the merchant wrote counts. */
  lemma OwnOffers(t: Terms, o: Offers)
    requires t.offers == Some(o)
    ensures var r := ResolveSkuOffers(t.offers);
            && r.promoCodes == o.promoCodes
            && r.cashback == (if o.cashback.Some? then o.cashback.value else 0)
            && (o.campaign.None? ==> r.campaignBps == 0)
            && (o.campaign.Some? ==> r.campaignBps == o.campaign.value.discountBps && r.cap == o.campaign.value.cap)
  {
  }

  /** 30000 paise with no sale, tier or code and no offers of its own cost 27850: less 2000, less 150. */
  lemma QuoteExample(t: Terms, now: int)
    requires t.offers.None? && t.tiers == [] && t.promoCode == ""
    ensures OfferedPrice(30000, t, [], now) == 27850
  {
    DefaultOffers(t);
    WaterfallInNumbers(30000, t);
  }
}
