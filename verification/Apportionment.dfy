/** Largest-remainder (Hare-Niemeyer) bill splitting from arithmeticEnclave.py. */
module Apportionment {
  import opened Paise

  /** An amount to split in proportion to non-negative weights with a positive sum. */
  datatype Bill = Bill(total: nat, weights: seq<nat>) {
    predicate Valid() {
      Sum(weights) > 0
    }

    function Weight(): nat
      requires Valid()
    {
      Sum(weights)
    }

    function Floor(i: nat): nat
      requires Valid() && i < |weights|
    {
      total * weights[i] / Weight()
    }

    function Remainder(i: nat): (r: nat)
      requires Valid() && i < |weights|
      ensures r < Weight()
    {
      total * weights[i] % Weight()
    }

    /** The sort key (-remainder, -weight, index) of i is below that of j. */
    predicate Before(i: nat, j: nat)
      requires Valid() && i < |weights| && j < |weights|
    {
      Remainder(i) > Remainder(j) ||
      (Remainder(i) == Remainder(j) &&
       (weights[i] > weights[j] || (weights[i] == weights[j] && i < j)))
    }

    function FloorTo(k: nat): nat
      requires Valid() && k <= |weights|
    {
      if k == 0 then 0 else FloorTo(k - 1) + Floor(k - 1)
    }

    function RemainderTo(k: nat): nat
      requires Valid() && k <= |weights|
    {
      if k == 0 then 0 else RemainderTo(k - 1) + Remainder(k - 1)
    }
  }

  /** Participant i receives one paisa above its floor. */
  predicate Bonus(b: Bill, shares: seq<int>, i: nat)
    requires b.Valid() && i < |b.weights| == |shares|
  {
    shares[i] == b.Floor(i) + 1
  }

  /**
   * The Hare-Niemeyer rule: every share is its floor or one more, they add up to the total, and
   * whoever got the extra paisa ranks before whoever did not.
   */
  ghost predicate HareNiemeyer(b: Bill, shares: seq<int>)
    requires b.Valid()
  {
    && |shares| == |b.weights|
    && Sum(shares) == b.total
    && (forall i: nat :: i < |shares| ==> shares[i] == b.Floor(i) || Bonus(b, shares, i))
    && (forall i: nat, j: nat ::
          i < |shares| && j < |shares| && Bonus(b, shares, i) && !Bonus(b, shares, j) ==> b.Before(i, j))
  }

  // ---------------------------------------------------------------- arithmetic of quotas

  lemma DivMod(x: nat, w: nat)
    requires w > 0
    ensures x == w * (x / w) + x % w
  {
  }

  lemma MulNonNegative(x: nat, y: nat)
    ensures x * y >= 0
  {
  }

  lemma MulStep(w: nat, a: int, b: int)
    requires a < b
    ensures w * a + w <= w * b
  {
    var d: nat := b - a - 1;
    MulNonNegative(w, d);
    assert w * b == w * (a + 1 + d);
    assert w * (a + 1 + d) == w * a + w + w * d;
  }

  lemma AtMost(w: int, a: int, b: int)
    requires w > 0 && w * a <= w * b
    ensures a <= b
  {
    if b < a {
      MulStep(w, b, a);
      assert false;
    }
  }

  lemma Below(w: int, a: int, b: int)
    requires w > 0 && w * a < w * b
    ensures a < b
  {
    AtMost(w, a, b);
  }

  lemma Distributes(a: int, b: int, c: int)
    ensures a * (b + c) == a * b + a * c
  {
  }

  lemma {:induction false} QuotasAddUp(b: Bill, k: nat)
    requires b.Valid() && k <= |b.weights|
    ensures b.total * SumTo(b.weights, k) == b.Weight() * b.FloorTo(k) + b.RemainderTo(k)
  {
    if k > 0 {
      QuotasAddUp(b, k - 1);
      DivMod(b.total * b.weights[k - 1], b.Weight());
      Distributes(b.total, SumTo(b.weights, k - 1), b.weights[k - 1]);
      Distributes(b.Weight(), b.FloorTo(k - 1), b.Floor(k - 1));
    }
  }

  lemma {:induction false} RemaindersBounded(b: Bill, k: nat)
    requires b.Valid() && k <= |b.weights|
    ensures b.RemainderTo(k) <= k * (b.Weight() - 1)
  {
    if k > 0 {
      RemaindersBounded(b, k - 1);
      assert k * (b.Weight() - 1) == (k - 1) * (b.Weight() - 1) + (b.Weight() - 1);
    }
  }

  /** The paise left after flooring, and how they relate to the remainders. */
  lemma LeftoverBound(b: Bill)
    requires b.Valid()
    ensures var extra := b.total - b.FloorTo(|b.weights|);
            0 <= extra < |b.weights| && b.RemainderTo(|b.weights|) == extra * b.Weight()
  {
    var n, w := |b.weights|, b.Weight();
    var extra := b.total - b.FloorTo(n);
    QuotasAddUp(b, n);
    RemaindersBounded(b, n);
    assert b.total * w == w * b.FloorTo(n) + b.RemainderTo(n);
    assert extra * w == b.total * w - w * b.FloorTo(n);
    assert n * (w - 1) == w * n - n;
    assert n > 0;
    AtMost(w, 0, extra);
    Below(w, extra, n);
  }

  // ---------------------------------------------------------------- ranking

  lemma BeforeTotal(b: Bill, i: nat, j: nat)
    requires b.Valid() && i < |b.weights| && j < |b.weights| && i != j
    ensures b.Before(i, j) <==> !b.Before(j, i)
  {
  }

  predicate Indices(b: Bill, ranked: seq<nat>) {
    forall p :: 0 <= p < |ranked| ==> ranked[p] < |b.weights|
  }

  ghost predicate RankedBy(b: Bill, ranked: seq<nat>)
    requires b.Valid() && Indices(b, ranked)
  {
    forall p, q :: 0 <= p < q < |ranked| ==> b.Before(ranked[p], ranked[q])
  }

  function InsertRank(b: Bill, i: nat, ranked: seq<nat>): (r: seq<nat>)
    requires b.Valid() && Indices(b, ranked) && i < |b.weights|
    ensures Indices(b, r) && |r| == |ranked| + 1
    ensures forall x :: x in r <==> x == i || x in ranked
  {
    if |ranked| == 0 || b.Before(i, ranked[0]) then [i] + ranked
    else
      var rest := InsertRank(b, i, ranked[1..]);
      assert ranked == [ranked[0]] + ranked[1..];
      [ranked[0]] + rest
  }

  /** `sorted(range(k), key=...)`. */
  function RankUpTo(b: Bill, k: nat): (r: seq<nat>)
    requires b.Valid() && k <= |b.weights|
    ensures Indices(b, r) && |r| == k && forall x: nat :: x in r <==> x < k
  {
    if k == 0 then [] else InsertRank(b, k - 1, RankUpTo(b, k - 1))
  }

  lemma {:induction false} InsertRankSorted(b: Bill, i: nat, ranked: seq<nat>)
    requires b.Valid() && Indices(b, ranked) && i < |b.weights| && i !in ranked
    requires RankedBy(b, ranked)
    ensures RankedBy(b, InsertRank(b, i, ranked))
  {
    if |ranked| > 0 && !b.Before(i, ranked[0]) {
      var head, tail := ranked[0], ranked[1..];
      BeforeTotal(b, i, head);
      InsertRankSorted(b, i, tail);
      var rest := InsertRank(b, i, tail);
      forall q | 0 <= q < |rest| ensures b.Before(head, rest[q]) {
        if rest[q] != i {
          assert rest[q] in tail;
        }
      }
    } else {
      forall q | 0 <= q < |ranked| ensures b.Before(i, ranked[q]) {
        assert q > 0 ==> b.Before(ranked[0], ranked[q]);
      }
    }
  }

  lemma {:induction false} RankSorted(b: Bill, k: nat)
    requires b.Valid() && k <= |b.weights|
    ensures RankedBy(b, RankUpTo(b, k))
  {
    if k > 0 {
      RankSorted(b, k - 1);
      InsertRankSorted(b, k - 1, RankUpTo(b, k - 1));
    }
  }

  // ---------------------------------------------------------------- the algorithm

  function Floors(b: Bill): (f: seq<int>)
    requires b.Valid()
    ensures |f| == |b.weights| && forall i :: 0 <= i < |f| ==> f[i] == b.Floor(i)
  {
    seq(|b.weights|, i requires 0 <= i < |b.weights| => b.Floor(i))
  }

  lemma {:induction false} FloorsSum(b: Bill, k: nat)
    requires b.Valid() && k <= |b.weights|
    ensures SumTo(Floors(b), k) == b.FloorTo(k)
  {
    if k > 0 {
      FloorsSum(b, k - 1);
    }
  }

  predicate Splittable(total: int, ratios: seq<int>) {
    IsPaise(total) && |ratios| > 0 && AllPaise(ratios) && Sum(ratios) > 0
  }

  method SplitBillConserved(total: int, ratios: seq<int>) returns (r: Checked<seq<int>>)
    ensures r.Ok? <==> Splittable(total, ratios)
    ensures r.Ok? <==>
      && 0 <= total <= 0x7FFF_FFFF_FFFF_FFFF && |ratios| > 0 && Sum(ratios) > 0
      && forall i :: 0 <= i < |ratios| ==> 0 <= ratios[i] <= 0x7FFF_FFFF_FFFF_FFFF
    ensures r.Ok? ==> HareNiemeyer(Bill(total, ratios), r.value)
    ensures r.Ok? ==> |r.value| == |ratios| && Sum(r.value) == total
    ensures r.Ok? ==> forall i: nat :: i < |ratios| ==>
      r.value[i] == total * ratios[i] / Sum(ratios) || r.value[i] == total * ratios[i] / Sum(ratios) + 1
  {
    if !IsPaise(total) || |ratios| == 0 || !AllPaise(ratios) || Sum(ratios) <= 0 {
      return Drift;
    }
    var b := Bill(total, ratios);
    var n := |ratios|;
    LeftoverBound(b);
    if total == 0 {
      var zeros := seq(n, _ => 0);
      ZeroBill(b, zeros);
      return Ok(zeros);
    }
    var floors := Floors(b);
    var ranked := RankUpTo(b, n);
    RankSorted(b, n);
    FloorsSum(b, n);
    var shares := floors;
    var leftover := total - Sum(floors);
    var i := 0;
    while i < leftover
      invariant 0 <= i <= leftover && |shares| == n
      invariant Sum(shares) == Sum(floors) + i
      invariant forall x: nat :: x < n ==>
        shares[x] == floors[x] + (if x in ranked[..i] then 1 else 0)
    {
      var x := ranked[i];
      assert x !in ranked[..i];
      assert ranked[..i + 1] == ranked[..i] + [x];
      SumToUpdate(shares, x, shares[x] + 1, n);
      shares := shares[x := shares[x] + 1];
      i := i + 1;
    }
    forall x: nat, y: nat | x < n && y < n && Bonus(b, shares, x) && !Bonus(b, shares, y)
      ensures b.Before(x, y)
    {
      RankPositions(b, ranked, leftover, x, y);
    }
    return Ok(shares);
  }

  lemma RankPositions(b: Bill, ranked: seq<nat>, k: nat, x: nat, y: nat)
    requires b.Valid() && Indices(b, ranked) && RankedBy(b, ranked) && k <= |ranked|
    requires x in ranked[..k] && y in ranked && y !in ranked[..k]
    ensures x < |b.weights| && y < |b.weights| && b.Before(x, y)
  {
    var p :| 0 <= p < k && ranked[p] == x;
    var q :| 0 <= q < |ranked| && ranked[q] == y;
    assert q >= k;
  }

  lemma {:induction false} ZeroSum(zeros: seq<int>, k: nat)
    requires k <= |zeros| && forall i :: 0 <= i < |zeros| ==> zeros[i] == 0
    ensures SumTo(zeros, k) == 0
  {
    if k > 0 {
      ZeroSum(zeros, k - 1);
    }
  }

  lemma ZeroBill(b: Bill, zeros: seq<int>)
    requires b.Valid() && b.total == 0 && |zeros| == |b.weights|
    requires forall i :: 0 <= i < |zeros| ==> zeros[i] == 0
    ensures HareNiemeyer(b, zeros)
  {
    ZeroSum(zeros, |zeros|);
    forall i: nat | i < |zeros| ensures b.Floor(i) == 0 {
      assert b.total * b.weights[i] == 0;
    }
  }

  // ---------------------------------------------------------------- what the rule guarantees

  /**
   * The tie rule in plain products: whoever leaves the larger remainder, or the same one with the larger weight,
   * or the same of both and is listed earlier, gets an extra paisa if the other does.
   */
  lemma TieRule(total: nat, weights: seq<nat>, shares: seq<int>, i: nat, j: nat)
    requires Sum(weights) > 0 && HareNiemeyer(Bill(total, weights), shares)
    requires i < |weights| && j < |weights|
    requires
      || total * weights[i] % Sum(weights) > total * weights[j] % Sum(weights)
      || (total * weights[i] % Sum(weights) == total * weights[j] % Sum(weights) &&
          (weights[i] > weights[j] || (weights[i] == weights[j] && i < j)))
    ensures |shares| == |weights|
    ensures shares[j] > total * weights[j] / Sum(weights) ==> shares[i] > total * weights[i] / Sum(weights)
  {
    var b := Bill(total, weights);
    assert b.Before(i, j) && !b.Before(j, i);
  }

  /** 50 paise by weights 1 and 3 leave the remainder 2 twice, and the larger weight gets the odd paisa. */
  lemma TieExample(shares: seq<int>)
    requires Sum([1, 3]) > 0 && HareNiemeyer(Bill(50, [1, 3]), shares)
    ensures shares == [12, 38]
  {
    var w := [1, 3];
    assert SumTo(w, 0) == 0 && SumTo(w, 1) == 1 && Sum(w) == 4;
    TieRule(50, w, shares, 1, 0);
    assert SumTo(shares, 0) == 0;
    assert SumTo(shares, 1) == shares[0];
    assert Sum(shares) == SumTo(shares, 2) == shares[0] + shares[1];
  }

  /** A larger weight, or an equal weight listed earlier, never receives less. */
  lemma OrderPreserved(b: Bill, shares: seq<int>, i: nat, j: nat)
    requires b.Valid() && HareNiemeyer(b, shares) && i < |shares| && j < |shares|
    requires b.weights[i] > b.weights[j] || (b.weights[i] == b.weights[j] && i < j)
    ensures shares[i] >= shares[j]
  {
    var w, x, y := b.Weight(), b.total * b.weights[i], b.total * b.weights[j];
    assert x >= y;
    DivMod(x, w);
    DivMod(y, w);
    FloorMonotone(x, y, w);
    assert Bonus(b, shares, j) && !Bonus(b, shares, i) ==> b.Before(j, i);
  }

  lemma FloorMonotone(x: nat, y: nat, w: nat)
    requires x >= y && w > 0
    ensures x / w >= y / w
  {
    DivMod(x, w);
    DivMod(y, w);
    if x / w < y / w {
      MulStep(w, x / w, y / w);
      assert false;
    }
  }

  /** Remainders of the participants who got no extra paisa stay at or below this. */
  function Threshold(b: Bill, shares: seq<int>, k: nat): (t: nat)
    requires b.Valid() && k <= |b.weights| == |shares|
    ensures t < b.Weight()
    ensures forall i: nat :: i < k && !Bonus(b, shares, i) ==> b.Remainder(i) <= t
  {
    if k == 0 then 0
    else
      var t := Threshold(b, shares, k - 1);
      if !Bonus(b, shares, k - 1) && b.Remainder(k - 1) > t then b.Remainder(k - 1) else t
  }

  lemma {:induction false} ThresholdBelowBonus(b: Bill, shares: seq<int>, k: nat)
    requires b.Valid() && HareNiemeyer(b, shares) && k <= |shares|
    ensures forall i: nat :: i < |shares| && Bonus(b, shares, i) ==> Threshold(b, shares, k) <= b.Remainder(i)
  {
    if k > 0 {
      ThresholdBelowBonus(b, shares, k - 1);
    }
  }

  function Abs(x: int): nat {
    if x < 0 then -x else x
  }

  /** Weight() times the distance of a share from its exact quota. */
  function Deviation(b: Bill, a: seq<int>, i: nat): nat
    requires b.Valid() && i < |b.weights| == |a|
  {
    Abs(b.Weight() * a[i] - b.total * b.weights[i])
  }

  function DeviationTo(b: Bill, a: seq<int>, k: nat): nat
    requires b.Valid() && k <= |b.weights| == |a|
  {
    if k == 0 then 0 else DeviationTo(b, a, k - 1) + Deviation(b, a, k - 1)
  }

  /** d paise above the floor cost at least the tangent line through the share actually given. */
  lemma Tangent(w: int, r: int, t: int, d: int, bonus: bool)
    requires 0 <= r < w && 0 <= t < w
    requires if bonus then t <= r else r <= t
    ensures var s := if bonus then 1 else 0;
            Abs(w * d - r) >= Abs(w * s - r) + (w - 2 * t) * (d - s)
  {
    if bonus {
      TangentAtOne(w, r, t, d);
    } else {
      TangentAtZero(w, r, t, d);
    }
  }

  lemma MirrorPoint(w: int, r: int, d: int)
    ensures w * (1 - d) - (w - r) == -(w * d - r)
  {
  }

  lemma MirrorSlope(w: int, t: int, d: int)
    ensures (w - 2 * (w - t)) * (1 - d) == (w - 2 * t) * (d - 1)
  {
  }

  lemma TangentAtOne(w: int, r: int, t: int, d: int)
    requires 0 <= t <= r < w
    ensures Abs(w * d - r) >= w - r + (w - 2 * t) * (d - 1)
  {
    TangentAtZero(w, w - r, w - t, 1 - d);
    MirrorPoint(w, r, d);
    MirrorSlope(w, t, d);
  }

  lemma TangentAtZero(w: int, r: int, t: int, d: int)
    requires 0 <= r <= t <= w
    ensures Abs(w * d - r) >= r + (w - 2 * t) * d
  {
    assert (w - 2 * t) * d == w * d - 2 * (t * d);
    if d >= 1 {
      assert t * (d - 1) >= 0;
      assert t * (d - 1) == t * d - t;
      AboveLine(w * d - r, r + w * d - 2 * (t * d));
    } else {
      assert (w - t) * d <= 0;
      assert (w - t) * d == w * d - t * d;
      BelowLine(w * d - r, r + w * d - 2 * (t * d));
    }
  }

  lemma AboveLine(x: int, y: int)
    requires x >= y
    ensures Abs(x) >= y
  {
  }

  lemma BelowLine(x: int, y: int)
    requires -x >= y
    ensures Abs(x) >= y
  {
  }

  lemma FromFloor(w: int, v: int, f: int, x: int, r: int)
    requires x == w * f + r
    ensures w * v - x == w * (v - f) - r
  {
    assert w * (v - f) == w * v - w * f;
  }

  /** The same for amounts and quotas: v paise instead of the q actually given, where w * quota is x. */
  lemma DeviationLine(w: nat, x: nat, v: int, q: int, t: nat, bonus: bool)
    requires t < w && q == x / w + (if bonus then 1 else 0)
    requires if bonus then t <= x % w else x % w <= t
    ensures Abs(w * v - x) >= Abs(w * q - x) + (w - 2 * t) * (v - q)
  {
    var f, r, s := x / w, x % w, if bonus then 1 else 0;
    DivMod(x, w);
    FromFloor(w, v, f, x, r);
    FromFloor(w, q, f, x, r);
    Tangent(w, r, t, v - f, bonus);
    assert v - q == v - f - s && q - f == s;
  }

  lemma DeviationAtShare(b: Bill, a: seq<int>, shares: seq<int>, t: nat, i: nat)
    requires b.Valid() && HareNiemeyer(b, shares) && |a| == |shares| && i < |a| && t < b.Weight()
    requires if Bonus(b, shares, i) then t <= b.Remainder(i) else b.Remainder(i) <= t
    ensures Deviation(b, a, i) >= Deviation(b, shares, i) + (b.Weight() - 2 * t) * (a[i] - shares[i])
  {
    DeviationLine(b.Weight(), b.total * b.weights[i], a[i], shares[i], t, Bonus(b, shares, i));
  }

  lemma {:induction false} DeviationSupport(b: Bill, a: seq<int>, shares: seq<int>, t: nat, k: nat)
    requires b.Valid() && HareNiemeyer(b, shares) && |a| == |shares| && k <= |a| && t < b.Weight()
    requires forall i: nat :: i < |a| ==>
      if Bonus(b, shares, i) then t <= b.Remainder(i) else b.Remainder(i) <= t
    ensures DeviationTo(b, a, k) >=
            DeviationTo(b, shares, k) + (b.Weight() - 2 * t) * (SumTo(a, k) - SumTo(shares, k))
  {
    if k > 0 {
      DeviationSupport(b, a, shares, t, k - 1);
      DeviationAtShare(b, a, shares, t, k - 1);
      var c := b.Weight() - 2 * t;
      var x, y := SumTo(a, k - 1) - SumTo(shares, k - 1), a[k - 1] - shares[k - 1];
      assert c * (x + y) == c * x + c * y;
    }
  }

  /** No other integer allocation of the same total lies closer to the exact quotas. */
  lemma SplitIsOptimal(b: Bill, shares: seq<int>, other: seq<int>)
    requires b.Valid() && HareNiemeyer(b, shares)
    requires |other| == |shares| && Sum(other) == b.total
    ensures DeviationTo(b, shares, |shares|) <= DeviationTo(b, other, |shares|)
  {
    var n := |shares|;
    ThresholdBelowBonus(b, shares, n);
    DeviationSupport(b, other, shares, Threshold(b, shares, n), n);
    assert (b.Weight() - 2 * Threshold(b, shares, n)) * 0 == 0;
  }

  /** Leaving out the bonus of j, each bonus covers the remainder at its place. */
  lemma RemainderCovered(b: Bill, shares: seq<int>, j: nat, i: nat)
    requires b.Valid() && HareNiemeyer(b, shares) && j < |shares| && i < |shares|
    requires Bonus(b, shares, j) && b.Remainder(j) == 0
    ensures var extra := shares[i] - b.Floor(i) - (if i == j then 1 else 0);
            0 <= extra && b.Remainder(i) <= (b.Weight() - 1) * extra
  {
    if i != j && !Bonus(b, shares, i) {
      assert b.Before(j, i);
    }
  }

  lemma {:induction false} RemaindersWithEmptyBonus(b: Bill, shares: seq<int>, j: nat, k: nat)
    requires b.Valid() && HareNiemeyer(b, shares) && j < |shares| && k <= |shares|
    requires Bonus(b, shares, j) && b.Remainder(j) == 0
    ensures b.RemainderTo(k) <=
            (b.Weight() - 1) * (SumTo(shares, k) - b.FloorTo(k) - (if j < k then 1 else 0))
    ensures SumTo(shares, k) - b.FloorTo(k) >= (if j < k then 1 else 0)
  {
    if k > 0 {
      RemaindersWithEmptyBonus(b, shares, j, k - 1);
      RemainderCovered(b, shares, j, k - 1);
      var x := SumTo(shares, k - 1) - b.FloorTo(k - 1) - (if j < k - 1 then 1 else 0);
      var extra := shares[k - 1] - b.Floor(k - 1) - (if k - 1 == j then 1 else 0);
      Distributes(b.Weight() - 1, x, extra);
    }
  }

  lemma ShortOfBonuses(w: int, extra: int)
    requires w > 0 && extra >= 0
    ensures extra >= 1 ==> (w - 1) * (extra - 1) < extra * w
  {
    assert (w - 1) * (extra - 1) == extra * w - w - extra + 1;
  }

  /** An exact quota, in particular a zero weight, never receives an extra paisa. */
  lemma ExactQuotaGetsNoBonus(b: Bill, shares: seq<int>, j: nat)
    requires b.Valid() && HareNiemeyer(b, shares) && j < |shares|
    requires b.Remainder(j) == 0
    ensures shares[j] == b.Floor(j) && b.Weight() * shares[j] == b.total * b.weights[j]
  {
    DivMod(b.total * b.weights[j], b.Weight());
    if Bonus(b, shares, j) {
      var n := |shares|;
      LeftoverBound(b);
      RemaindersWithEmptyBonus(b, shares, j, n);
      var extra, w := b.total - b.FloorTo(n), b.Weight();
      ShortOfBonuses(w, extra);
      assert false;
    }
  }

  /** Every share is the floor or the ceiling of its quota. */
  lemma SharesWithinQuota(b: Bill, shares: seq<int>, i: nat)
    requires b.Valid() && HareNiemeyer(b, shares) && i < |shares|
    ensures b.Weight() * (shares[i] - 1) < b.total * b.weights[i] < b.Weight() * (shares[i] + 1)
  {
    var w := b.Weight();
    DivMod(b.total * b.weights[i], w);
    assert w * (b.Floor(i) + 1) == w * b.Floor(i) + w;
    assert w * (b.Floor(i) - 1) == w * b.Floor(i) - w;
    assert w * (b.Floor(i) + 2) == w * b.Floor(i) + 2 * w;
    if Bonus(b, shares, i) && b.Remainder(i) == 0 {
      ExactQuotaGetsNoBonus(b, shares, i);
    }
  }

  /** The rule leaves no choice: any two allocations that obey it are equal. */
  lemma HareNiemeyerUnique(b: Bill, s: seq<int>, t: seq<int>)
    requires b.Valid() && HareNiemeyer(b, s) && HareNiemeyer(b, t)
    ensures s == t
  {
    var n := |s|;
    if i: nat :| i < n && Bonus(b, s, i) && !Bonus(b, t, i) {
      SubsetOfBonuses(b, s, t, i);
      BonusSums(b, s, t, i, n);
    } else if i: nat :| i < n && Bonus(b, t, i) && !Bonus(b, s, i) {
      SubsetOfBonuses(b, t, s, i);
      BonusSums(b, t, s, i, n);
    }
  }

  lemma SubsetOfBonuses(b: Bill, s: seq<int>, t: seq<int>, i: nat)
    requires b.Valid() && HareNiemeyer(b, s) && HareNiemeyer(b, t)
    requires i < |s| && Bonus(b, s, i) && !Bonus(b, t, i)
    ensures forall j: nat :: j < |s| && Bonus(b, t, j) ==> Bonus(b, s, j)
  {
    forall j: nat | j < |s| && Bonus(b, t, j) ensures Bonus(b, s, j) {
      if !Bonus(b, s, j) {
        BeforeTotal(b, i, j);
      }
    }
  }

  lemma {:induction false} BonusSums(b: Bill, s: seq<int>, t: seq<int>, i: nat, k: nat)
    requires b.Valid() && |s| == |t| == |b.weights| && k <= |s| && i < |s|
    requires forall j: nat :: j < |s| ==> (s[j] == b.Floor(j) || Bonus(b, s, j)) && (t[j] == b.Floor(j) || Bonus(b, t, j))
    requires forall j: nat :: j < |s| && Bonus(b, t, j) ==> Bonus(b, s, j)
    requires Bonus(b, s, i) && !Bonus(b, t, i)
    ensures SumTo(s, k) >= SumTo(t, k) + (if i < k then 1 else 0)
  {
    if k > 0 {
      BonusSums(b, s, t, i, k - 1);
    }
  }

  // ---------------------------------------------------------------- cart discounts

  lemma FloorFits(total: nat, v: nat, w: nat)
    requires w > 0 && total <= w
    ensures total * v / w <= v
    ensures total * v % w > 0 ==> total * v / w < v
  {
    DivMod(total * v, w);
    assert total * v <= w * v by { assert (w - total) * v >= 0; }
    AtMost(w, total * v / w, v);
    if total * v % w > 0 {
      Below(w, total * v / w, v);
    }
  }

  lemma DiscountShareFits(b: Bill, shares: seq<int>, i: nat)
    requires b.Valid() && HareNiemeyer(b, shares) && i < |shares| && b.total <= b.Weight()
    ensures 0 <= shares[i] <= b.weights[i]
  {
    FloorFits(b.total, b.weights[i], b.Weight());
    if b.Remainder(i) == 0 {
      ExactQuotaGetsNoBonus(b, shares, i);
    }
  }

  predicate Allocatable(items: seq<int>, discount: int) {
    IsPaise(discount) && (|items| == 0 || (AllPaise(items) && discount <= Sum(items)))
  }

  /** The apportioned discount adds up and never exceeds the value of the item it lands on. */
  method AllocateCartDiscountConserved(items: seq<int>, discount: int) returns (r: Checked<seq<int>>)
    ensures r.Ok? <==> Allocatable(items, discount)
    ensures r.Ok? <==>
      && 0 <= discount <= 0x7FFF_FFFF_FFFF_FFFF && (|items| > 0 ==> discount <= Sum(items))
      && forall i :: 0 <= i < |items| ==> 0 <= items[i] <= 0x7FFF_FFFF_FFFF_FFFF
    ensures r.Ok? ==> |r.value| == |items| && (|items| > 0 ==> Sum(r.value) == discount)
    ensures r.Ok? ==> forall i :: 0 <= i < |items| ==> 0 <= r.value[i] <= items[i]
    ensures r.Ok? && |items| > 0 && Sum(items) > 0 ==> HareNiemeyer(Bill(discount, items), r.value)
  {
    if !IsPaise(discount) {
      return Drift;
    }
    if |items| == 0 {
      return Ok([]);
    }
    if !AllPaise(items) || discount > Sum(items) {
      return Drift;
    }
    if discount == 0 {
      var zeros := seq(|items|, _ => 0);
      ZeroSum(zeros, |zeros|);
      if Sum(items) > 0 {
        ZeroBill(Bill(discount, items), zeros);
      }
      return Ok(zeros);
    }
    r := SplitBillConserved(discount, items);
    forall i | 0 <= i < |items| ensures 0 <= r.value[i] <= items[i] {
      DiscountShareFits(Bill(discount, items), r.value, i);
    }
  }
}
