/** Which transfers a split phase hands out, and when they are the ones the manifest asked for. */
module SplitLegs {
  import opened Paise
  import opened CompensationTypes
  import opened RouteProvider
  import opened CompensationQueue
  import opened SplitManifest
  import opened Rollback

  predicate DistinctKeys(requests: seq<TransferRequest>, paymentId: string) {
    forall i, j :: 0 <= i < j < |requests| ==> TransferKey(requests[i], paymentId) != TransferKey(requests[j], paymentId)
  }

  function LegFor(l: Ledger, r: TransferRequest, paymentId: string, freshId: string): RouteTransfer {
    var key := TransferKey(r, paymentId);
    if key in l.idempotent then l.idempotent[key] else RouteTransfer(freshId, r.account, r.amount)
  }

  /** Each leg is the transfer recorded under its key before the split, or a new one that pays the request. */
  lemma {:induction false} LegsAreRecordedOrNew(
    l: Ledger, requests: seq<TransferRequest>, paymentId: string, freshIds: nat -> string, ok: nat -> bool, k: nat)
    requires k <= |requests| && DistinctKeys(requests, paymentId)
    ensures var s := SplitTo(l, requests, paymentId, freshIds, ok, k);
            && |s.legs| <= k && (!s.failed ==> |s.legs| == k)
            && (forall i :: 0 <= i < |s.legs| ==> s.legs[i] == LegFor(l, requests[i], paymentId, freshIds(i)))
            && (forall j :: k <= j < |requests| ==>
                  var key := TransferKey(requests[j], paymentId);
                  (key in s.ledger.idempotent <==> key in l.idempotent) &&
                  (key in l.idempotent ==> s.ledger.idempotent[key] == l.idempotent[key]))
  {
    if k > 0 {
      LegsAreRecordedOrNew(l, requests, paymentId, freshIds, ok, k - 1);
    }
  }

  /** No transfer was ever created under the key of one of these requests. */
  predicate UnusedKeys(l: Ledger, requests: seq<TransferRequest>, paymentId: string) {
    forall i :: 0 <= i < |requests| ==> TransferKey(requests[i], paymentId) !in l.idempotent
  }

  function LegAmounts(legs: seq<RouteTransfer>): (r: seq<int>)
    ensures |r| == |legs|
  {
    seq(|legs|, i requires 0 <= i < |legs| => legs[i].amount)
  }

  lemma KeysOfShares(m: Manifest, paymentId: string, requests: seq<TransferRequest>)
    requires PaysShares(m, paymentId, requests) && DistinctPurposes(requests)
    ensures DistinctKeys(requests, paymentId)
  {
    forall i, j | 0 <= i < j < |requests|
      ensures TransferKey(requests[i], paymentId) != TransferKey(requests[j], paymentId)
    {
      LegKeysDistinct(requests[i], requests[j], paymentId);
    }
  }

  /** When the keys are unused a split that succeeds pays every share, and the legs add up to the manifest's total. */
  lemma FreshSplitPaysManifest(
    l: Ledger, m: Manifest, requests: seq<TransferRequest>, paymentId: string, freshIds: nat -> string, ok: nat -> bool)
    requires PaysShares(m, paymentId, requests) && DistinctPurposes(requests) && UnusedKeys(l, requests, paymentId)
    requires Sum(Amounts(requests)) == m.total
    requires !SplitTo(l, requests, paymentId, freshIds, ok, |requests|).failed
    ensures var legs := SplitTo(l, requests, paymentId, freshIds, ok, |requests|).legs;
            && |legs| == |requests| && Sum(LegAmounts(legs)) == m.total
            && (forall i :: 0 <= i < |legs| ==>
                  legs[i].amount == Share(m, requests[i].purpose) > 0 && legs[i].account == Payee(m, requests[i].purpose)
                  && legs[i].id == freshIds(i))
  {
    KeysOfShares(m, paymentId, requests);
    LegsAreRecordedOrNew(l, requests, paymentId, freshIds, ok, |requests|);
    var legs := SplitTo(l, requests, paymentId, freshIds, ok, |requests|).legs;
    assert LegAmounts(legs) == Amounts(requests);
  }

  /** The provider's ids are new to the queue. */
  predicate FreshIds(q: Shared, freshIds: nat -> string, n: nat) {
    && (forall i, j :: 0 <= i < j < n ==> freshIds(i) != freshIds(j))
    && (forall i: nat :: i < n ==> freshIds(i) !in q.tombstones && ReversalKey(freshIds(i)) !in q.records)
  }

  lemma FreshSplitLegs(
    q: Shared, l: Ledger, m: Manifest, requests: seq<TransferRequest>, paymentId: string,
    freshIds: nat -> string, ok: nat -> bool)
    requires PaysShares(m, paymentId, requests) && DistinctPurposes(requests) && Conserves(m)
    requires UnusedKeys(l, requests, paymentId) && FreshIds(q, freshIds, |requests|)
    ensures var legs := SplitTo(l, requests, paymentId, freshIds, ok, |requests|).legs;
            FreshLegs(q, legs) && forall i :: 0 <= i < |legs| ==> 0 < legs[i].amount <= m.total
  {
    KeysOfShares(m, paymentId, requests);
    LegsAreRecordedOrNew(l, requests, paymentId, freshIds, ok, |requests|);
  }

  lemma SmallLegsSurvive(q: Shared, legs: seq<RouteTransfer>, ok: nat -> bool, maxRetries: nat)
    requires PositiveLegs(legs) && maxRetries > 0
    requires forall i :: 0 <= i < |legs| ==> legs[i].amount <= MAX_PAISE
    ensures LostTotal(q, legs, ok, maxRetries, |legs|) == 0
  {
    NothingLost(q, legs, ok, maxRetries, |legs|);
  }

  /**
   * With unused keys a failed split is rolled back in exactly reverse order, and what its legs paid is then
   * reversed or queued; nothing is lost when the captured total is within the recordable range.
   */
  lemma FreshSplitRollsBack(
    q: Shared, l: Ledger, m: Manifest, requests: seq<TransferRequest>, paymentId: string,
    freshIds: nat -> string, ok: nat -> bool, reversalOk: nat -> bool, maxRetries: nat)
    requires PaysShares(m, paymentId, requests) && DistinctPurposes(requests) && Conserves(m)
    requires UnusedKeys(l, requests, paymentId) && FreshIds(q, freshIds, |requests|)
    ensures var legs := SplitTo(l, requests, paymentId, freshIds, ok, |requests|).legs;
            var after := CompensateTo(q, legs, reversalOk, maxRetries, |legs|);
            && AttemptsTo(q, legs, reversalOk, maxRetries, |legs|) == IdsFromEnd(legs, |legs|)
            && ReversedTotal(after.reversals) + QueuedTotal(after.pending) + LostTotal(q, legs, reversalOk, maxRetries, |legs|)
               == ReversedTotal(q.reversals) + QueuedTotal(q.pending) + LegTotal(legs, |legs|)
            && (m.total <= MAX_PAISE && maxRetries > 0 ==> LostTotal(q, legs, reversalOk, maxRetries, |legs|) == 0)
  {
    FreshSplitLegs(q, l, m, requests, paymentId, freshIds, ok);
    var legs := SplitTo(l, requests, paymentId, freshIds, ok, |requests|).legs;
    AttemptedInReverseOrder(q, legs, reversalOk, maxRetries, |legs|);
    RollbackConserves(q, legs, reversalOk, maxRetries, |legs|);
    if m.total <= MAX_PAISE && maxRetries > 0 {
      SmallLegsSurvive(q, legs, reversalOk, maxRetries);
    }
  }

  // ---------------------------------------------------------------- splitting a payment again

  /** Every leg of a split is recorded under its request's key, where a later split will find it. */
  lemma {:induction false} LegsAreRemembered(
    l: Ledger, requests: seq<TransferRequest>, paymentId: string, freshIds: nat -> string, ok: nat -> bool, k: nat)
    requires k <= |requests| && DistinctKeys(requests, paymentId)
    ensures var s := SplitTo(l, requests, paymentId, freshIds, ok, k);
            && |s.legs| <= k && (!s.failed ==> |s.legs| == k)
            && forall i :: 0 <= i < |s.legs| ==>
                 var key := TransferKey(requests[i], paymentId);
                 key in s.ledger.idempotent && s.ledger.idempotent[key] == s.legs[i]
  {
    if k > 0 {
      LegsAreRemembered(l, requests, paymentId, freshIds, ok, k - 1);
    }
  }

  /** The rollback took the leg back, or left that to the queue. */
  predicate TakenBack(q: Shared, leg: RouteTransfer) {
    leg.id in q.tombstones || ReversalKey(leg.id) in q.records
  }

  predicate ReversedOrQueued(q: Shared, leg: RouteTransfer, maxRetries: nat) {
    leg.id in q.tombstones || NewEvent(AsTransfer(leg), maxRetries) in q.pending
  }

  /** Failed to be reversed, and not recordable. */
  predicate LostLeg(q: Shared, legs: seq<RouteTransfer>, ok: nat -> bool, maxRetries: nat, j: nat)
    requires j < |legs|
  {
    ReversalFails(q, legs, ok, j) && !Recordable(FromEnd(legs, j).amount, maxRetries)
  }

  /** Where the j-th leg from the end is after a rollback. */
  lemma {:induction false} WhereLegsGo(
    q: Shared, legs: seq<RouteTransfer>, ok: nat -> bool, maxRetries: nat, k: nat, j: nat)
    requires j < k <= |legs| && FreshLegs(q, legs)
    ensures var s, leg := CompensateTo(q, legs, ok, maxRetries, k), FromEnd(legs, j);
            && (leg.id in s.tombstones <==> !ReversalFails(q, legs, ok, j))
            && (ReversalKey(leg.id) in s.records <==>
                  ReversalFails(q, legs, ok, j) && Recordable(leg.amount, maxRetries))
            && (ReversalKey(leg.id) in s.records ==> NewEvent(AsTransfer(leg), maxRetries) in s.pending)
  {
    var mine, its := FromEnd(legs, k - 1).id, FromEnd(legs, j).id;
    OthersUntouched(q, legs, ok, maxRetries, k - 1, k - 1);
    if j < k - 1 {
      WhereLegsGo(q, legs, ok, maxRetries, k - 1, j);
      if ReversalKey(mine) == ReversalKey(its) {
        ReversalKeyInjective(mine, its);
      }
    }
  }

  lemma TakenBackExactly(q: Shared, legs: seq<RouteTransfer>, ok: nat -> bool, maxRetries: nat, i: nat)
    requires i < |legs| && FreshLegs(q, legs)
    ensures TakenBack(CompensateTo(q, legs, ok, maxRetries, |legs|), legs[i]) <==>
            !LostLeg(q, legs, ok, maxRetries, |legs| - 1 - i)
    ensures var after := CompensateTo(q, legs, ok, maxRetries, |legs|);
            TakenBack(after, legs[i]) ==> ReversedOrQueued(after, legs[i], maxRetries)
  {
    var j := |legs| - 1 - i;
    assert FromEnd(legs, j) == legs[i];
    WhereLegsGo(q, legs, ok, maxRetries, |legs|, j);
  }

  /** The storage after a failed split has been rolled back. */
  function AfterRollback(q: Shared, first: SplitState, ok: nat -> bool, maxRetries: nat): Shared {
    CompensateTo(Knowing(q, first), first.legs, ok, maxRetries, |first.legs|)
  }

  /** The storage once the provider has created the legs of a split. */
  function Knowing(q: Shared, s: SplitState): Shared {
    q.(known := s.ledger.transfers.Keys)
  }

  /** A split touches no key but those of its own legs. */
  lemma {:induction false} OtherKeysUntouched(
    l: Ledger, requests: seq<TransferRequest>, paymentId: string, freshIds: nat -> string, ok: nat -> bool, k: nat)
    requires k <= |requests| && DistinctKeys(requests, paymentId)
    ensures var s := SplitTo(l, requests, paymentId, freshIds, ok, k);
            && |s.legs| <= k
            && forall j :: |s.legs| <= j < |requests| ==>
                 (TransferKey(requests[j], paymentId) in s.ledger.idempotent <==>
                  TransferKey(requests[j], paymentId) in l.idempotent)
  {
    if k > 0 {
      OtherKeysUntouched(l, requests, paymentId, freshIds, ok, k - 1);
      LegsAreRemembered(l, requests, paymentId, freshIds, ok, k - 1);
    }
  }

  lemma NextLegFails(
    l: Ledger, requests: seq<TransferRequest>, paymentId: string, freshIds: nat -> string, ok: nat -> bool, k: nat)
    requires k < |requests| && DistinctKeys(requests, paymentId)
    requires !SplitTo(l, requests, paymentId, freshIds, ok, k).failed
    ensures SplitTo(l, requests, paymentId, freshIds, ok, k + 1).failed <==>
            TransferKey(requests[k], paymentId) !in l.idempotent && !ok(k)
  {
    OtherKeysUntouched(l, requests, paymentId, freshIds, ok, k);
  }

  predicate RefusedAnew(l: Ledger, requests: seq<TransferRequest>, paymentId: string, ok: nat -> bool, j: nat)
    requires j < |requests|
  {
    TransferKey(requests[j], paymentId) !in l.idempotent && !ok(j)
  }

  /** A split fails exactly when the provider refuses a leg that it has not created before. */
  lemma {:induction false} SplitFailsExactly(
    l: Ledger, requests: seq<TransferRequest>, paymentId: string, freshIds: nat -> string, ok: nat -> bool, k: nat)
    requires k <= |requests| && DistinctKeys(requests, paymentId)
    ensures SplitTo(l, requests, paymentId, freshIds, ok, k).failed <==>
            exists j: nat :: j < k && RefusedAnew(l, requests, paymentId, ok, j)
  {
    if k > 0 {
      SplitFailsExactly(l, requests, paymentId, freshIds, ok, k - 1);
      if SplitTo(l, requests, paymentId, freshIds, ok, k - 1).failed {
        FailureStays(l, requests, paymentId, freshIds, ok, k - 1, k);
      } else {
        NextLegFails(l, requests, paymentId, freshIds, ok, k - 1);
        assert SplitTo(l, requests, paymentId, freshIds, ok, k).failed <==>
          RefusedAnew(l, requests, paymentId, ok, k - 1);
      }
    }
  }

  /** A second split of the same requests begins with the legs of the first, and creates the others. */
  lemma RetryReusesLegs(
    l: Ledger, requests: seq<TransferRequest>, paymentId: string, ids: nat -> string, ok: nat -> bool,
    ids': nat -> string, ok': nat -> bool)
    requires DistinctKeys(requests, paymentId) && UnusedKeys(l, requests, paymentId)
    requires !SplitTo(SplitTo(l, requests, paymentId, ids, ok, |requests|).ledger,
                      requests, paymentId, ids', ok', |requests|).failed
    ensures var first := SplitTo(l, requests, paymentId, ids, ok, |requests|);
            var again := SplitTo(first.ledger, requests, paymentId, ids', ok', |requests|);
            && |again.legs| == |requests| && first.legs <= again.legs
            && forall i :: 0 <= i < |requests| ==>
                 again.legs[i] == RouteTransfer(
                   if i < |first.legs| then ids(i) else ids'(i), requests[i].account, requests[i].amount)
  {
    var n := |requests|;
    LegsAreRemembered(l, requests, paymentId, ids, ok, n);
    LegsAreRecordedOrNew(l, requests, paymentId, ids, ok, n);
    OtherKeysUntouched(l, requests, paymentId, ids, ok, n);
    var first := SplitTo(l, requests, paymentId, ids, ok, n);
    LegsAreRecordedOrNew(first.ledger, requests, paymentId, ids', ok', n);
  }

  /** No leg of the retry has been taken back: all it reports is with the payees. */
  predicate AllWithPayees(q: Shared, legs: seq<RouteTransfer>) {
    forall i :: 0 <= i < |legs| ==> !TakenBack(q, legs[i])
  }

  predicate AllLost(q: Shared, legs: seq<RouteTransfer>, ok: nat -> bool, maxRetries: nat) {
    forall j :: 0 <= j < |legs| ==> LostLeg(q, legs, ok, maxRetries, j)
  }

  lemma PrefixTakenBack(
    q: Shared, first: seq<RouteTransfer>, again: seq<RouteTransfer>, ok: nat -> bool, maxRetries: nat)
    requires FreshLegs(q, first) && first <= again
    requires var after := CompensateTo(q, first, ok, maxRetries, |first|);
      forall i :: |first| <= i < |again| ==> !TakenBack(after, again[i])
    ensures var after := CompensateTo(q, first, ok, maxRetries, |first|);
            && (forall i :: 0 <= i < |first| ==>
                  && (TakenBack(after, again[i]) <==> !LostLeg(q, first, ok, maxRetries, |first| - 1 - i))
                  && (TakenBack(after, again[i]) ==> ReversedOrQueued(after, again[i], maxRetries)))
            && (AllWithPayees(after, again) <==> AllLost(q, first, ok, maxRetries))
  {
    var after := CompensateTo(q, first, ok, maxRetries, |first|);
    forall i | 0 <= i < |first|
      ensures TakenBack(after, again[i]) <==> !LostLeg(q, first, ok, maxRetries, |first| - 1 - i)
      ensures TakenBack(after, again[i]) ==> ReversedOrQueued(after, again[i], maxRetries)
    {
      TakenBackExactly(q, first, ok, maxRetries, i);
    }
    if AllWithPayees(after, again) {
      forall j | 0 <= j < |first| ensures LostLeg(q, first, ok, maxRetries, j) {
        assert !TakenBack(after, again[|first| - 1 - j]);
      }
    }
  }

  lemma NoneLost(q: Shared, legs: seq<RouteTransfer>, ok: nat -> bool, maxRetries: nat)
    requires forall i :: 0 <= i < |legs| ==> Recordable(legs[i].amount, maxRetries)
    ensures AllLost(q, legs, ok, maxRetries) <==> |legs| == 0
  {
    if |legs| > 0 {
      assert !LostLeg(q, legs, ok, maxRetries, 0);
    }
  }

  /** What has happened when a failed split was rolled back and its payment is split again, successfully. */
  predicate SplitAgain(
    q: Shared, l: Ledger, requests: seq<TransferRequest>, paymentId: string, first: SplitState, after: Shared,
    ids: nat -> string, ok: nat -> bool, reversalOk: nat -> bool, maxRetries: nat,
    ids': nat -> string, ok': nat -> bool)
  {
    && DistinctKeys(requests, paymentId) && UnusedKeys(l, requests, paymentId) && FreshIds(q, ids, |requests|)
    && first == SplitTo(l, requests, paymentId, ids, ok, |requests|) && first.failed
    && after == AfterRollback(q, first, reversalOk, maxRetries)
    && FreshIds(after, ids', |requests|)
    && !SplitTo(first.ledger, requests, paymentId, ids', ok', |requests|).failed
  }

  /**
   * A payment whose split was rolled back, split again: the result adds up as if nothing had happened, but it
   * begins with the legs of the first split, and each of these was reversed or is queued for reversal unless
   * it was lost. So all the money reported is with the payees exactly when every leg of the first split was
   * lost, which for recordable amounts means that the first split had created none.
   */
  lemma RetryReportsReversedLegs(
    q: Shared, l: Ledger, requests: seq<TransferRequest>, paymentId: string, first: SplitState, after: Shared,
    ids: nat -> string, ok: nat -> bool, reversalOk: nat -> bool, maxRetries: nat,
    ids': nat -> string, ok': nat -> bool)
    requires SplitAgain(q, l, requests, paymentId, first, after, ids, ok, reversalOk, maxRetries, ids', ok')
    ensures var again := SplitTo(first.ledger, requests, paymentId, ids', ok', |requests|).legs;
            && first.legs <= again && Sum(LegAmounts(again)) == Sum(Amounts(requests))
            && (forall i :: 0 <= i < |first.legs| ==>
                  && (TakenBack(after, again[i]) <==>
                        !LostLeg(Knowing(q, first), first.legs, reversalOk, maxRetries, |first.legs| - 1 - i))
                  && (TakenBack(after, again[i]) ==> ReversedOrQueued(after, again[i], maxRetries)))
            && (AllWithPayees(after, again) <==> AllLost(Knowing(q, first), first.legs, reversalOk, maxRetries))
            && ((forall i :: 0 <= i < |requests| ==> Recordable(requests[i].amount, maxRetries)) ==>
                  (AllWithPayees(after, again) <==> |first.legs| == 0))
  {
    var again := SplitTo(first.ledger, requests, paymentId, ids', ok', |requests|).legs;
    RetryReusesLegs(l, requests, paymentId, ids, ok, ids', ok');
    assert LegAmounts(again) == Amounts(requests);
    assert FreshLegs(Knowing(q, first), first.legs) by {
      LegsAreRecordedOrNew(l, requests, paymentId, ids, ok, |requests|);
    }
    PrefixTakenBack(Knowing(q, first), first.legs, again, reversalOk, maxRetries);
    if forall i :: 0 <= i < |requests| ==> Recordable(requests[i].amount, maxRetries) {
      forall i | 0 <= i < |first.legs| ensures Recordable(first.legs[i].amount, maxRetries) {
        assert first.legs[i] == again[i];
      }
      NoneLost(Knowing(q, first), first.legs, reversalOk, maxRetries);
    }
  }

  /** Such a payment: the provider takes the first of two legs, refuses the second, and later takes it too. */
  lemma RetryAfterOneLeg(
    q: Shared, l: Ledger, requests: seq<TransferRequest>, paymentId: string, ids: nat -> string, ok: nat -> bool,
    reversalOk: nat -> bool, maxRetries: nat, ids': nat -> string, ok': nat -> bool)
    requires |requests| == 2 && DistinctKeys(requests, paymentId) && UnusedKeys(l, requests, paymentId)
    requires FreshIds(q, ids, 2) && FreshIds(q, ids', 2) && ids(0) != ids'(0) && ids(0) != ids'(1)
    requires ok(0) && !ok(1) && ok'(1)
    ensures var first := SplitTo(l, requests, paymentId, ids, ok, 2);
            && first.legs == [RouteTransfer(ids(0), requests[0].account, requests[0].amount)]
            && SplitAgain(q, l, requests, paymentId, first, AfterRollback(q, first, reversalOk, maxRetries),
                          ids, ok, reversalOk, maxRetries, ids', ok')
  {
    var leg := RouteTransfer(ids(0), requests[0].account, requests[0].amount);
    var first := SplitTo(l, requests, paymentId, ids, ok, 2);
    assert SplitTo(l, requests, paymentId, ids, ok, 1).legs == [leg];
    OneLegTakenBack(q, first, leg, reversalOk, maxRetries);
    forall j: nat | j < 2 && ReversalKey(ids'(j)) == ReversalKey(ids(0)) ensures false {
      ReversalKeyInjective(ids'(j), ids(0));
    }
    assert SplitTo(first.ledger, requests, paymentId, ids', ok', 1) == SplitState(first.ledger, [leg], false);
  }

  lemma OneLegTakenBack(q: Shared, first: SplitState, leg: RouteTransfer, ok: nat -> bool, maxRetries: nat)
    requires first.legs == [leg]
    ensures AfterRollback(q, first, ok, maxRetries) ==
            CompensateOne(Knowing(q, first), AsTransfer(leg), ok(0), maxRetries)
  {
    assert CompensateTo(Knowing(q, first), first.legs, ok, maxRetries, 0) == Knowing(q, first);
  }

  /** In figures: of 100 paise that the second split reports as paid out, 60 were taken back. */
  lemma RetryExample(
    requests: seq<TransferRequest>, ids: nat -> string, ok: nat -> bool, reversalOk: nat -> bool,
    ids': nat -> string, ok': nat -> bool)
    requires requests ==
      [TransferRequest("m", 60, MERCHANT_PURPOSE, "p"), TransferRequest("f", 40, PROTOCOL_PURPOSE, "p")]
    requires ids(0) == "a" && ids(1) == "b" && ids'(0) == "c" && ids'(1) == "d"
    requires ok(0) && !ok(1) && ok'(1) && reversalOk(0)
    ensures var q := Shared([], [], {}, map[], {}, []);
            var first := SplitTo(Ledger(map[], map[]), requests, "p", ids, ok, 2);
            var again := SplitTo(first.ledger, requests, "p", ids', ok', 2);
            && !again.failed && Sum(LegAmounts(again.legs)) == 100
            && again.legs == [RouteTransfer("a", "m", 60), RouteTransfer("d", "f", 40)]
            && AfterRollback(q, first, reversalOk, 5).reversals == [Transfer("a", 60)]
  {
    var q, l := Shared([], [], {}, map[], {}, []), Ledger(map[], map[]);
    var first := SplitTo(l, requests, "p", ids, ok, 2);
    assert DistinctKeys(requests, "p") by {
      LegKeysDistinct(requests[0], requests[1], "p");
    }
    RetryAfterOneLeg(q, l, requests, "p", ids, ok, reversalOk, 5, ids', ok');
    assert AfterRollback(q, first, reversalOk, 5).reversals == [Transfer("a", 60)] by {
      OneLegTakenBack(q, first, RouteTransfer("a", "m", 60), reversalOk, 5);
      CreatedLegsKnown(l, requests, "p", ids, ok, 2);
    }
    var again := SplitTo(first.ledger, requests, "p", ids', ok', 2);
    assert again.legs == [RouteTransfer("a", "m", 60), RouteTransfer("d", "f", 40)] by {
      RetryReusesLegs(l, requests, "p", ids, ok, ids', ok');
    }
    assert LegAmounts(again.legs) == [60] + [40];
    SumAppend([60], 40);
  }

  /** The provider knows the transfers that it created for a split. */
  lemma {:induction false} CreatedLegsKnown(
    l: Ledger, requests: seq<TransferRequest>, paymentId: string, freshIds: nat -> string, ok: nat -> bool, k: nat)
    requires k <= |requests| && DistinctKeys(requests, paymentId) && UnusedKeys(l, requests, paymentId)
    ensures var s := SplitTo(l, requests, paymentId, freshIds, ok, k);
            forall i :: 0 <= i < |s.legs| ==> s.legs[i].id in s.ledger.transfers
  {
    if k > 0 {
      CreatedLegsKnown(l, requests, paymentId, freshIds, ok, k - 1);
      LegsAreRecordedOrNew(l, requests, paymentId, freshIds, ok, k - 1);
    }
  }
}
