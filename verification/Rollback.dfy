/** Split execution and its last-in-first-out compensation (twoPhaseCommitSaga.py). */
module Rollback {
  import opened Paise
  import opened CompensationTypes
  import opened RouteProvider
  import opened CompensationQueue
  import opened SplitManifest

  // ---------------------------------------------------------------- compensating one transfer

  /** An event can be built: the amount is in bounds and at least one retry is allowed. */
  predicate Recordable(amount: nat, maxRetries: nat) {
    amount <= MAX_PAISE && maxRetries > 0
  }

  function CompensateOne(q: Shared, t: Transfer, ok: bool, maxRetries: nat): Shared {
    if t.id in q.tombstones then q
    else if ok && t.id in q.known then
      q.(reversals := q.reversals + [t], tombstones := q.tombstones + {t.id})
    else if !Recordable(t.amount, maxRetries) || ReversalKey(t.id) in q.records then q
    else
      var event := NewEvent(t, maxRetries);
      q.(pending := q.pending + [event], records := q.records[ReversalKey(t.id) := event])
  }

  /** The k-th leg to compensate, counted from the last completed one. */
  function FromEnd<T>(completed: seq<T>, k: nat): T
    requires k < |completed|
  {
    completed[|completed| - 1 - k]
  }

  /** After the last k completed legs; `ok(j)` is the provider's answer to the j-th. */
  function CompensateTo(q: Shared, completed: seq<RouteTransfer>, ok: nat -> bool, maxRetries: nat, k: nat): Shared
    requires k <= |completed|
  {
    if k == 0 then q
    else CompensateOne(CompensateTo(q, completed, ok, maxRetries, k - 1),
                       AsTransfer(FromEnd(completed, k - 1)), ok(k - 1), maxRetries)
  }

  /** Ids of the last k completed legs, last first. */
  function IdsFromEnd(completed: seq<RouteTransfer>, k: nat): (r: seq<string>)
    requires k <= |completed|
    ensures |r| == k && forall j :: 0 <= j < k ==> r[j] == completed[|completed| - 1 - j].id
  {
    seq(k, j requires 0 <= j < k => FromEnd(completed, j).id)
  }

  /** Reversals asked for, in order: a leg whose tombstone is set is passed over. */
  function AttemptsTo(q: Shared, completed: seq<RouteTransfer>, ok: nat -> bool, maxRetries: nat, k: nat): seq<string>
    requires k <= |completed|
  {
    if k == 0 then []
    else
      var id := FromEnd(completed, k - 1).id;
      AttemptsTo(q, completed, ok, maxRetries, k - 1)
      + (if id in CompensateTo(q, completed, ok, maxRetries, k - 1).tombstones then [] else [id])
  }

  predicate PositiveLegs(completed: seq<RouteTransfer>) {
    forall i :: 0 <= i < |completed| ==> completed[i].amount > 0
  }

  /** What the rollback returns: one entry for each leg not passed over, empty where the reversal failed. */
  function ResultsTo(
    q: Shared, completed: seq<RouteTransfer>, ok: nat -> bool, maxRetries: nat, k: nat): seq<CallResult<Transfer>>
    requires k <= |completed|
  {
    if k == 0 then []
    else
      var t := AsTransfer(FromEnd(completed, k - 1));
      ResultsTo(q, completed, ok, maxRetries, k - 1)
      + (if t.id in CompensateTo(q, completed, ok, maxRetries, k - 1).tombstones then []
         else [AnswerFor(t, ok(k - 1) && t.id in CompensateTo(q, completed, ok, maxRetries, k - 1).known)])
  }

  function AnswerFor(t: Transfer, reversed: bool): CallResult<Transfer> {
    if reversed then Done(t) else ProviderError
  }

  /** Without a queue nothing is checked or remembered: each leg is attempted once. */
  function ReversedTo(known: set<string>, completed: seq<RouteTransfer>, ok: nat -> bool, k: nat): seq<Transfer>
    requires k <= |completed|
  {
    if k == 0 then []
    else
      var t := AsTransfer(FromEnd(completed, k - 1));
      ReversedTo(known, completed, ok, k - 1) + (if ok(k - 1) && t.id in known then [t] else [])
  }

  /** Exactly the legs among the last k whose reversal the provider accepts are reversed, each in full. */
  lemma {:induction false} ReversedExactly(
    known: set<string>, completed: seq<RouteTransfer>, ok: nat -> bool, k: nat, t: Transfer)
    requires k <= |completed|
    ensures t in ReversedTo(known, completed, ok, k) <==>
            exists j: nat :: j < k && ok(j) && t.id in known &&
              t == Transfer(completed[|completed| - 1 - j].id, completed[|completed| - 1 - j].amount)
  {
    if k > 0 {
      ReversedExactly(known, completed, ok, k - 1, t);
    }
  }

  /** Reverses one leg; a failed reversal goes to the queue when there is one. */
  method CompensateTransfer(route: RouteClient, dlq: CompensationDlq?, leg: RouteTransfer, accepted: bool)
    returns (skipped: bool, reversal: CallResult<Transfer>)
    requires leg.amount > 0
    modifies route`reversals, route`attempted
    modifies dlq
    ensures dlq != null ==>
      dlq.View(route) == CompensateOne(old(dlq.View(route)), AsTransfer(leg), accepted, dlq.defaultMaxRetries)
    ensures dlq != null ==> (skipped <==> leg.id in old(dlq.compensated))
    ensures dlq == null ==> !skipped
    ensures dlq == null ==>
      route.reversals == old(route.reversals) + (if accepted && leg.id in route.transfers then [AsTransfer(leg)] else [])
    ensures route.attempted == old(route.attempted) + (if skipped then [] else [leg.id])
    ensures !skipped ==> reversal == AnswerFor(AsTransfer(leg), accepted && leg.id in route.transfers)
  {
    skipped, reversal := false, ProviderError;
    if dlq != null {
      skipped := dlq.IsAlreadyCompensated(leg.id);
      if skipped {
        return;
      }
    }
    reversal := route.ReverseTransfer(leg.id, leg.amount, accepted);
    if dlq != null {
      if reversal.Done? {
        dlq.MarkCompensated(leg.id, reversal.value.id);
      } else {
        var _ := dlq.EnqueueReversal(leg.id, leg.amount);
      }
    }
  }

  /** Where a rollback stands after the last k legs, seen from the queue or from the provider alone. */
  ghost predicate RolledBackTo(
    now: Shared, nowAttempted: seq<string>, q: Shared, attempted: seq<string>,
    completed: seq<RouteTransfer>, ok: nat -> bool, maxRetries: nat, k: nat)
    requires k <= |completed|
  {
    && now == CompensateTo(q, completed, ok, maxRetries, k)
    && nowAttempted == attempted + AttemptsTo(q, completed, ok, maxRetries, k)
  }

  ghost predicate ReversedOnlyTo(
    now: seq<Transfer>, nowAttempted: seq<string>, reversals: seq<Transfer>, attempted: seq<string>,
    known: set<string>, completed: seq<RouteTransfer>, ok: nat -> bool, k: nat)
    requires k <= |completed|
  {
    && now == reversals + ReversedTo(known, completed, ok, k)
    && nowAttempted == attempted + IdsFromEnd(completed, k)
  }

  lemma OneMoreReversed(
    now: seq<Transfer>, nowAttempted: seq<string>, reversals: seq<Transfer>, attempted: seq<string>,
    known: set<string>, completed: seq<RouteTransfer>, ok: nat -> bool, k: nat)
    requires k < |completed| && ReversedOnlyTo(now, nowAttempted, reversals, attempted, known, completed, ok, k)
    ensures var t := AsTransfer(FromEnd(completed, k));
            ReversedOnlyTo(now + (if ok(k) && t.id in known then [t] else []), nowAttempted + [t.id],
                           reversals, attempted, known, completed, ok, k + 1)
  {
    assert IdsFromEnd(completed, k + 1) == IdsFromEnd(completed, k) + [FromEnd(completed, k).id];
  }

  lemma OneMoreRolledBack(
    now: Shared, nowAttempted: seq<string>, q: Shared, attempted: seq<string>,
    completed: seq<RouteTransfer>, ok: nat -> bool, maxRetries: nat, k: nat)
    requires k < |completed| && RolledBackTo(now, nowAttempted, q, attempted, completed, ok, maxRetries, k)
    ensures var t := AsTransfer(FromEnd(completed, k));
            RolledBackTo(CompensateOne(now, t, ok(k), maxRetries),
                         nowAttempted + (if t.id in now.tombstones then [] else [t.id]),
                         q, attempted, completed, ok, maxRetries, k + 1)
  {
  }

  /** `compensateTransfers`: last in, first out, never stopping early. */
  method CompensateTransfers(
    route: RouteClient, dlq: CompensationDlq?, completed: seq<RouteTransfer>, accepted: nat -> bool)
    returns (reversals: seq<CallResult<Transfer>>)
    requires PositiveLegs(completed)
    modifies route`reversals, route`attempted
    modifies dlq
    ensures dlq != null ==>
      RolledBackTo(dlq.View(route), route.attempted, old(dlq.View(route)), old(route.attempted),
                   completed, accepted, dlq.defaultMaxRetries, |completed|)
    ensures dlq == null ==>
      ReversedOnlyTo(route.reversals, route.attempted, old(route.reversals), old(route.attempted),
                     route.transfers.Keys, completed, accepted, |completed|)
    ensures dlq != null ==>
      reversals == ResultsTo(old(dlq.View(route)), completed, accepted, dlq.defaultMaxRetries, |completed|)
    ensures dlq == null ==> |reversals| == |completed| && forall k: nat :: k < |completed| ==>
      reversals[k] ==
        AnswerFor(AsTransfer(FromEnd(completed, k)), accepted(k) && FromEnd(completed, k).id in route.transfers)
  {
    reversals := [];
    var k := 0;
    while k < |completed|
      invariant k <= |completed|
      invariant dlq != null ==>
        RolledBackTo(dlq.View(route), route.attempted, old(dlq.View(route)), old(route.attempted),
                     completed, accepted, dlq.defaultMaxRetries, k)
      invariant dlq == null ==>
        ReversedOnlyTo(route.reversals, route.attempted, old(route.reversals), old(route.attempted),
                       route.transfers.Keys, completed, accepted, k)
      invariant dlq != null ==>
        reversals == ResultsTo(old(dlq.View(route)), completed, accepted, dlq.defaultMaxRetries, k)
      invariant dlq == null ==> |reversals| == k && forall j: nat :: j < k ==>
        reversals[j] ==
          AnswerFor(AsTransfer(FromEnd(completed, j)), accepted(j) && FromEnd(completed, j).id in route.transfers)
    {
      if dlq != null {
        OneMoreRolledBack(dlq.View(route), route.attempted, old(dlq.View(route)), old(route.attempted),
                          completed, accepted, dlq.defaultMaxRetries, k);
      } else {
        OneMoreReversed(route.reversals, route.attempted, old(route.reversals), old(route.attempted),
                        route.transfers.Keys, completed, accepted, k);
      }
      var skipped, reversal := CompensateTransfer(route, dlq, FromEnd(completed, k), accepted(k));
      if !skipped {
        reversals := reversals + [reversal];
      }
      k := k + 1;
    }
  }

  // ---------------------------------------------------------------- order and conservation

  /** Legs a split phase has just created: nothing is known about their compensation yet. */
  predicate FreshLegs(q: Shared, completed: seq<RouteTransfer>) {
    && (forall i, j :: 0 <= i < j < |completed| ==> completed[i].id != completed[j].id)
    && (forall i :: 0 <= i < |completed| ==>
          completed[i].id !in q.tombstones && ReversalKey(completed[i].id) !in q.records)
  }

  /** Compensating the first k legs tells nothing about the others. */
  lemma {:induction false} OthersUntouched(
    q: Shared, completed: seq<RouteTransfer>, ok: nat -> bool, maxRetries: nat, k: nat, j: nat)
    requires k <= j < |completed| && FreshLegs(q, completed)
    ensures var s := CompensateTo(q, completed, ok, maxRetries, k);
            && FromEnd(completed, j).id !in s.tombstones && ReversalKey(FromEnd(completed, j).id) !in s.records
            && s.known == q.known
  {
    if k > 0 {
      OthersUntouched(q, completed, ok, maxRetries, k - 1, j);
      var mine, its := FromEnd(completed, k - 1).id, FromEnd(completed, j).id;
      if ReversalKey(mine) == ReversalKey(its) {
        ReversalKeyInjective(mine, its);
      }
    }
  }

  /** Whatever the provider answers, reversals are asked for in exactly reverse order, each leg once. */
  lemma {:induction false} AttemptedInReverseOrder(
    q: Shared, completed: seq<RouteTransfer>, ok: nat -> bool, maxRetries: nat, k: nat)
    requires k <= |completed| && FreshLegs(q, completed)
    ensures AttemptsTo(q, completed, ok, maxRetries, k) == IdsFromEnd(completed, k)
  {
    if k > 0 {
      AttemptedInReverseOrder(q, completed, ok, maxRetries, k - 1);
      OthersUntouched(q, completed, ok, maxRetries, k - 1, k - 1);
      assert IdsFromEnd(completed, k) == IdsFromEnd(completed, k - 1) + [FromEnd(completed, k - 1).id];
    }
  }

  function LegTotal(completed: seq<RouteTransfer>, k: nat): nat
    requires k <= |completed|
  {
    if k == 0 then 0 else LegTotal(completed, k - 1) + FromEnd(completed, k - 1).amount
  }

  function ReversedTotal(reversals: seq<Transfer>): nat {
    if |reversals| == 0 then 0 else ReversedTotal(reversals[..|reversals| - 1]) + reversals[|reversals| - 1].amount
  }

  function QueuedTotal(pending: seq<Event>): nat {
    if |pending| == 0 then 0 else QueuedTotal(pending[..|pending| - 1]) + pending[|pending| - 1].amountPaise
  }

  predicate ReversalFails(q: Shared, completed: seq<RouteTransfer>, ok: nat -> bool, k: nat)
    requires k < |completed|
  {
    !(ok(k) && FromEnd(completed, k).id in q.known)
  }

  /** Failed reversals that no event can record. */
  function LostTotal(q: Shared, completed: seq<RouteTransfer>, ok: nat -> bool, maxRetries: nat, k: nat): nat
    requires k <= |completed|
  {
    if k == 0 then 0
    else LostTotal(q, completed, ok, maxRetries, k - 1) +
         (if ReversalFails(q, completed, ok, k - 1) && !Recordable(FromEnd(completed, k - 1).amount, maxRetries)
          then FromEnd(completed, k - 1).amount else 0)
  }

  lemma TotalsAppend(reversals: seq<Transfer>, t: Transfer, pending: seq<Event>, e: Event)
    ensures ReversedTotal(reversals + [t]) == ReversedTotal(reversals) + t.amount
    ensures QueuedTotal(pending + [e]) == QueuedTotal(pending) + e.amountPaise
  {
    assert (reversals + [t])[..|reversals|] == reversals && (pending + [e])[..|pending|] == pending;
  }

  /** What one leg adds to what is reversed, queued and lost. */
  lemma OneLegConserves(q: Shared, t: Transfer, ok: bool, maxRetries: nat)
    requires t.id !in q.tombstones && ReversalKey(t.id) !in q.records
    ensures var s := CompensateOne(q, t, ok, maxRetries);
            ReversedTotal(s.reversals) + QueuedTotal(s.pending)
            == ReversedTotal(q.reversals) + QueuedTotal(q.pending)
               + (if !(ok && t.id in q.known) && !Recordable(t.amount, maxRetries) then 0 else t.amount)
  {
    TotalsAppend(q.reversals, t, q.pending, NewEvent(t, maxRetries));
  }

  /**
   * With a working queue every paisa of the completed legs has been reversed or is queued for reversal,
   * whatever pattern of reversal failures occurs, up to the failed legs that no event can record.
   */
  lemma {:induction false} RollbackConserves(
    q: Shared, completed: seq<RouteTransfer>, ok: nat -> bool, maxRetries: nat, k: nat)
    requires k <= |completed| && FreshLegs(q, completed)
    ensures var s := CompensateTo(q, completed, ok, maxRetries, k);
            ReversedTotal(s.reversals) + QueuedTotal(s.pending) + LostTotal(q, completed, ok, maxRetries, k)
            == ReversedTotal(q.reversals) + QueuedTotal(q.pending) + LegTotal(completed, k)
  {
    if k > 0 {
      RollbackConserves(q, completed, ok, maxRetries, k - 1);
      OthersUntouched(q, completed, ok, maxRetries, k - 1, k - 1);
      OneLegConserves(CompensateTo(q, completed, ok, maxRetries, k - 1),
                      AsTransfer(FromEnd(completed, k - 1)), ok(k - 1), maxRetries);
    }
  }

  /** Nothing is lost exactly when every leg whose reversal fails can be recorded; a lost leg is positive. */
  lemma {:induction false} NothingLost(
    q: Shared, completed: seq<RouteTransfer>, ok: nat -> bool, maxRetries: nat, k: nat)
    requires k <= |completed| && PositiveLegs(completed)
    ensures LostTotal(q, completed, ok, maxRetries, k) == 0 <==>
            forall j :: 0 <= j < k && ReversalFails(q, completed, ok, j) ==>
              Recordable(FromEnd(completed, j).amount, maxRetries)
  {
    if k > 0 {
      NothingLost(q, completed, ok, maxRetries, k - 1);
    }
  }

  // ---------------------------------------------------------------- the split phase

  /** The provider's two tables of created transfers. */
  datatype Ledger = Ledger(transfers: map<string, RouteTransfer>, idempotent: map<string, RouteTransfer>)

  datatype SplitState = SplitState(ledger: Ledger, legs: seq<RouteTransfer>, failed: bool)

  ghost function LedgerOf(route: RouteClient): Ledger
    reads route`transfers, route`idempotentTransfers
  {
    Ledger(route.transfers, route.idempotentTransfers)
  }

  /** After the first k requests; a request whose key was used before gets the recorded transfer back. */
  function SplitTo(
    l: Ledger, requests: seq<TransferRequest>, paymentId: string, freshIds: nat -> string, ok: nat -> bool, k: nat)
    : SplitState
    requires k <= |requests|
  {
    if k == 0 then SplitState(l, [], false)
    else
      var s := SplitTo(l, requests, paymentId, freshIds, ok, k - 1);
      var r := requests[k - 1];
      var key := TransferKey(r, paymentId);
      if s.failed then s
      else if key in s.ledger.idempotent then s.(legs := s.legs + [s.ledger.idempotent[key]])
      else if !ok(k - 1) then s.(failed := true)
      else
        var t := RouteTransfer(freshIds(k - 1), r.account, r.amount);
        SplitState(Ledger(s.ledger.transfers[t.id := t], s.ledger.idempotent[key := t]), s.legs + [t], false)
  }

  lemma {:induction false} FailureStays(
    l: Ledger, requests: seq<TransferRequest>, paymentId: string, freshIds: nat -> string, ok: nat -> bool,
    j: nat, k: nat)
    requires j <= k <= |requests| && SplitTo(l, requests, paymentId, freshIds, ok, j).failed
    ensures SplitTo(l, requests, paymentId, freshIds, ok, k) == SplitTo(l, requests, paymentId, freshIds, ok, j)
  {
    if j < k {
      FailureStays(l, requests, paymentId, freshIds, ok, j, k - 1);
    }
  }

  predicate PositiveRecords(l: Ledger) {
    forall key :: key in l.idempotent ==> l.idempotent[key].amount > 0
  }

  predicate PositiveRequests(requests: seq<TransferRequest>) {
    forall i :: 0 <= i < |requests| ==> requests[i].amount > 0
  }

  lemma {:induction false} LegsPositive(
    l: Ledger, requests: seq<TransferRequest>, paymentId: string, freshIds: nat -> string, ok: nat -> bool, k: nat)
    requires k <= |requests| && PositiveRecords(l) && PositiveRequests(requests)
    ensures var s := SplitTo(l, requests, paymentId, freshIds, ok, k); PositiveLegs(s.legs) && PositiveRecords(s.ledger)
  {
    if k > 0 {
      LegsPositive(l, requests, paymentId, freshIds, ok, k - 1);
    }
  }

  datatype SplitOutcome = Legs(legs: seq<RouteTransfer>) | CompensationTriggered

  /** The loop of the split phase: the legs created before the first refusal. */
  method CreateLegs(
    route: RouteClient, requests: seq<TransferRequest>, paymentId: string,
    freshIds: nat -> string, accepted: nat -> bool)
    returns (completed: seq<RouteTransfer>, failed: bool)
    modifies route`transfers, route`idempotentTransfers
    ensures SplitTo(old(LedgerOf(route)), requests, paymentId, freshIds, accepted, |requests|)
         == SplitState(LedgerOf(route), completed, failed)
  {
    completed, failed := [], false;
    ghost var l := LedgerOf(route);
    for i := 0 to |requests|
      invariant SplitTo(l, requests, paymentId, freshIds, accepted, i) == SplitState(LedgerOf(route), completed, false)
      invariant !failed
    {
      var leg := route.CreateTransfer(
        requests[i], TransferKey(requests[i], paymentId), freshIds(i), accepted(i));
      if leg.ProviderError? {
        FailureStays(l, requests, paymentId, freshIds, accepted, i + 1, |requests|);
        return completed, true;
      }
      completed := completed + [leg.value];
    }
  }

  /** What the queue sees of a split phase: the transfers it created, and the compensation of a failed one. */
  ghost predicate SplitSeen(
    q: Shared, attempted: seq<string>, s: SplitState, ok: nat -> bool, maxRetries: nat,
    now: Shared, nowAttempted: seq<string>)
  {
    var before := q.(known := s.ledger.transfers.Keys);
    if s.failed then RolledBackTo(now, nowAttempted, before, attempted, s.legs, ok, maxRetries, |s.legs|)
    else now == before && nowAttempted == attempted
  }

  /** What is visible of reversals: the shared storage when there is a queue, and the provider's own log. */
  datatype Storage = NoQueue | Queue(view: Shared)

  datatype Trail = Trail(storage: Storage, reversals: seq<Transfer>, attempted: seq<string>)

  ghost function TrailOf(route: RouteClient, dlq: CompensationDlq?): Trail
    reads route`transfers, route`reversals, route`attempted, dlq
  {
    Trail(if dlq == null then NoQueue else Queue(dlq.View(route)), route.reversals, route.attempted)
  }

  function RetriesOf(dlq: CompensationDlq?): nat {
    if dlq == null then 0 else dlq.defaultMaxRetries
  }

  /** The trail a split phase leaves, with a queue and without one. */
  ghost predicate SplitLeaves(before: Trail, s: SplitState, ok: nat -> bool, maxRetries: nat, now: Trail) {
    match before.storage
    case Queue(q) =>
      now.storage.Queue? && SplitSeen(q, before.attempted, s, ok, maxRetries, now.storage.view, now.attempted)
    case NoQueue =>
      && now.storage.NoQueue?
      && if s.failed then
           ReversedOnlyTo(now.reversals, now.attempted, before.reversals, before.attempted,
                          s.ledger.transfers.Keys, s.legs, ok, |s.legs|)
         else now == before
  }

  /** `executeSplitPhase`: all the legs, or the completed ones compensated. */
  method ExecuteSplitPhase(
    route: RouteClient, dlq: CompensationDlq?, requests: seq<TransferRequest>, paymentId: string,
    freshIds: nat -> string, accepted: nat -> bool, reversalAccepted: nat -> bool)
    returns (r: SplitOutcome)
    requires PositiveRequests(requests) && PositiveRecords(LedgerOf(route))
    modifies route`transfers, route`idempotentTransfers, route`reversals, route`attempted
    modifies dlq
    ensures var s := SplitTo(old(LedgerOf(route)), requests, paymentId, freshIds, accepted, |requests|);
            && LedgerOf(route) == s.ledger && PositiveRecords(s.ledger)
            && r == (if s.failed then CompensationTriggered else Legs(s.legs))
            && SplitLeaves(old(TrailOf(route, dlq)), s, reversalAccepted, RetriesOf(dlq), TrailOf(route, dlq))
  {
    LegsPositive(LedgerOf(route), requests, paymentId, freshIds, accepted, |requests|);
    var completed, failed := CreateLegs(route, requests, paymentId, freshIds, accepted);
    if !failed {
      return Legs(completed);
    }
    var _ := CompensateTransfers(route, dlq, completed, reversalAccepted);
    return CompensationTriggered;
  }
}
