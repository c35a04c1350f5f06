/** The compensation dead-letter queue (compensationDlq.py) and its worker (compensationDlqWorker.py). */
module CompensationQueue {
  import opened Paise
  import opened CompensationTypes
  import opened RouteProvider

  const COMPENSATED_VALUE := "COMPENSATED"

  /** The retry limit of an event that is built without one. */
  const SCHEMA_MAX_RETRIES: nat := 5

  datatype EnqueueResult =
    | Queued(event: Event)
    | AlreadyCompensated(event: Event)
    | ExistingRecord(event: Event)
    | Rejected

  /** The storage the queue, the worker and the rollback share, and the provider's ledger. */
  datatype Shared = Shared(
    pending: seq<Event>,
    dead: seq<Event>,
    tombstones: set<string>,
    records: map<string, Event>,
    known: set<string>,
    reversals: seq<Transfer>)

  class CompensationDlq {
    var pending: seq<Event>
    var deadLetter: seq<Event>
    var compensated: map<string, string>
    var records: map<string, Event>
    const defaultMaxRetries: nat

    constructor (defaultMaxRetries: nat)
      ensures pending == [] && deadLetter == [] && compensated == map[] && records == map[]
      ensures this.defaultMaxRetries == defaultMaxRetries
    {
      pending, deadLetter, compensated, records := [], [], map[], map[];
      this.defaultMaxRetries := defaultMaxRetries;
    }

    ghost function View(route: RouteClient): Shared
      reads this, route`transfers, route`reversals
    {
      Shared(pending, deadLetter, compensated.Keys, records, route.transfers.Keys, route.reversals)
    }

    method IsAlreadyCompensated(transferId: string) returns (r: bool)
      ensures r <==> transferId in compensated
    {
      r := transferId in compensated;
    }

    method MarkCompensated(transferId: string, reversalId: string)
      modifies this`compensated
      ensures compensated == old(compensated)[transferId := if reversalId == "" then "COMPENSATED" else reversalId]
    {
      compensated := compensated[transferId := if reversalId == "" then COMPENSATED_VALUE else reversalId];
    }

    /** `maxRetries == 0` and the empty key stand for omitted or falsy arguments. */
    method EnqueueReversal(transferId: string, amountPaise: int, maxRetries: nat := 0, idempotencyKey: string := "")
      returns (r: EnqueueResult)
      modifies this`pending, this`records
      ensures var key := if idempotencyKey == "" then "cmp_" + transferId else idempotencyKey;
              var retries := if maxRetries == 0 then defaultMaxRetries else maxRetries;
              && r == (
                if !IsPaise(amountPaise) then Rejected
                else if transferId in compensated then
                  if amountPaise == 0 then Rejected
                  else AlreadyCompensated(Event(key, transferId, amountPaise, 0, 5, Compensated))
                else if key in old(records) then ExistingRecord(old(records)[key])
                else if amountPaise == 0 || retries == 0 then Rejected
                else Queued(Event(key, transferId, amountPaise, 0, retries, Pending)))
              && (if r.Queued? then pending == old(pending) + [r.event] && records == old(records)[key := r.event]
                  else pending == old(pending) && records == old(records))
    {
      if !IsPaise(amountPaise) {
        return Rejected;
      }
      var key := if idempotencyKey == "" then ReversalKey(transferId) else idempotencyKey;
      if transferId in compensated {
        return if amountPaise == 0 then Rejected
               else AlreadyCompensated(Event(key, transferId, amountPaise, 0, SCHEMA_MAX_RETRIES, Compensated));
      }
      if key in records {
        return ExistingRecord(records[key]);
      }
      var retries := if maxRetries == 0 then defaultMaxRetries else maxRetries;
      if amountPaise == 0 || retries == 0 {
        return Rejected;
      }
      var event := Event(key, transferId, amountPaise, 0, retries, Pending);
      records := records[key := event];
      pending := pending + [event];
      return Queued(event);
    }

    method PopPendingEvent() returns (found: bool, event: Event)
      modifies this`pending
      ensures found <==> |old(pending)| > 0
      ensures if found then event == old(pending)[0] && pending == old(pending)[1..] else pending == old(pending)
    {
      if |pending| == 0 {
        return false, Event("", "", 0, 0, 0, Pending);
      }
      found, event := true, pending[0];
      pending := pending[1..];
    }

    method RequeueEvent(event: Event)
      modifies this`pending
      ensures pending == old(pending) + [event]
    {
      pending := pending + [event];
    }

    method EscalateToDeadLetter(event: Event)
      modifies this`deadLetter
      ensures deadLetter == old(deadLetter) + [event.(status := DeadLetter)]
    {
      deadLetter := deadLetter + [event.(status := DeadLetter)];
    }
  }

  // ---------------------------------------------------------------- the worker

  /** One uninterrupted turn of a worker on the head of the queue. */
  function ProcessOne(q: Shared, ok: bool): Shared {
    if |q.pending| == 0 then q
    else
      var e, rest := q.pending[0], q.(pending := q.pending[1..]);
      if e.transferId in q.tombstones then rest
      else if ok && e.transferId in q.known then
        rest.(tombstones := q.tombstones + {e.transferId},
              reversals := q.reversals + [Transfer(e.transferId, e.amountPaise)])
      else if e.retryCount + 1 >= e.maxRetries then rest.(dead := q.dead + [AfterFailure(e)])
      else rest.(pending := rest.pending + [AfterFailure(e)])
  }

  /** The copy of the head event that a turn returns. */
  function Processed(q: Shared, ok: bool): Event
    requires |q.pending| > 0
  {
    var e := q.pending[0];
    if e.transferId in q.tombstones || (ok && e.transferId in q.known) then e.(status := Compensated)
    else AfterFailure(e)
  }

  /** The queue after k turns; `ok(i)` says whether the provider accepts on turn i. */
  function Drained(q: Shared, ok: nat -> bool, k: nat): Shared {
    if k == 0 then q else ProcessOne(Drained(q, ok, k - 1), ok(k - 1))
  }

  predicate PositiveAmounts(q: seq<Event>) {
    forall i :: 0 <= i < |q| ==> q[i].amountPaise > 0
  }

  class CompensationDlqWorker {
    const dlq: CompensationDlq
    const route: RouteClient

    constructor (dlq: CompensationDlq, route: RouteClient)
      ensures this.dlq == dlq && this.route == route
    {
      this.dlq, this.route := dlq, route;
    }

    /** Returns the updated copy of the head event, if there was one. */
    method ProcessNext(accepted: bool) returns (found: bool, event: Event)
      requires PositiveAmounts(dlq.pending)
      modifies dlq`pending, dlq`deadLetter, dlq`compensated, route`reversals, route`attempted
      ensures found <==> |old(dlq.pending)| > 0
      ensures found ==> event == Processed(old(dlq.View(route)), accepted)
      ensures found && event.status != Compensated ==>
        var head := old(dlq.pending[0]);
        && head.transferId !in dlq.compensated && !(accepted && head.transferId in route.transfers)
        && event.retryCount == head.retryCount + 1 && event.maxRetries == head.maxRetries
        && (event.status == DeadLetter <==> event.retryCount >= event.maxRetries)
      ensures dlq.View(route) == ProcessOne(old(dlq.View(route)), accepted)
      ensures PositiveAmounts(dlq.pending)
    {
      found, event := dlq.PopPendingEvent();
      if !found {
        return;
      }
      var done := dlq.IsAlreadyCompensated(event.transferId);
      if done {
        return found, event.(status := Compensated);
      }
      var reversal := route.ReverseTransfer(event.transferId, event.amountPaise, accepted);
      if reversal.Done? {
        dlq.MarkCompensated(event.transferId, reversal.value.id);
        return found, event.(status := Compensated);
      }
      var failed := AfterFailure(event);
      if event.retryCount + 1 >= event.maxRetries {
        dlq.EscalateToDeadLetter(failed);
      } else {
        dlq.RequeueEvent(failed);
      }
      return found, failed;
    }

    method ProcessAllPending(maxIterations: nat, ok: nat -> bool) returns (count: nat)
      requires PositiveAmounts(dlq.pending)
      modifies dlq`pending, dlq`deadLetter, dlq`compensated, route`reversals, route`attempted
      ensures count <= maxIterations
      ensures dlq.View(route) == Drained(old(dlq.View(route)), ok, count)
      ensures count < maxIterations ==> |dlq.pending| == 0
      ensures forall k: nat :: k < count ==> |Drained(old(dlq.View(route)), ok, k).pending| > 0
    {
      count := 0;
      while count < maxIterations
        invariant count <= maxIterations && PositiveAmounts(dlq.pending)
        invariant dlq.View(route) == Drained(old(dlq.View(route)), ok, count)
        invariant forall k: nat :: k < count ==> |Drained(old(dlq.View(route)), ok, k).pending| > 0
      {
        label turn:
        var found, _ := ProcessNext(ok(count));
        if !found {
          break;
        }
        assert dlq.View(route) == ProcessOne(old@turn(dlq.View(route)), ok(count));
        count := count + 1;
      }
    }
  }

  // ---------------------------------------------------------------- draining

  /** Attempts an event may still use up, at least one. */
  function AttemptsLeft(e: Event): (n: nat)
    ensures n > 0
  {
    if e.retryCount + 1 >= e.maxRetries then 1 else e.maxRetries - e.retryCount
  }

  /** Attempts left for the events of `who` together. */
  function Work(q: seq<Event>, who: set<string>): nat {
    if |q| == 0 then 0 else (if q[0].transferId in who then AttemptsLeft(q[0]) else 0) + Work(q[1..], who)
  }

  predicate IdsWithin(q: seq<Event>, who: set<string>) {
    forall i :: 0 <= i < |q| ==> q[i].transferId in who
  }

  lemma {:induction false} WorkAppend(q: seq<Event>, e: Event, who: set<string>)
    ensures Work(q + [e], who) == Work(q, who) + (if e.transferId in who then AttemptsLeft(e) else 0)
  {
    if |q| == 0 {
      assert q + [e] == [e];
    } else {
      assert (q + [e])[1..] == q[1..] + [e];
      WorkAppend(q[1..], e, who);
    }
  }

  /** A turn on one of `who` uses up at least one of their attempts; any other turn uses none. */
  lemma TurnUsesWork(q: Shared, ok: bool, who: set<string>)
    requires |q.pending| > 0
    ensures Work(ProcessOne(q, ok).pending, who) +
            (if q.pending[0].transferId in who then 1 else 0) <= Work(q.pending, who)
    ensures IdsWithin(q.pending, who) ==> IdsWithin(ProcessOne(q, ok).pending, who)
  {
    WorkAppend(q.pending[1..], AfterFailure(q.pending[0]), who);
  }

  /** With no new events the queue is empty after as many turns as its events have attempts left. */
  lemma {:induction false} DrainEmptiesQueue(q: Shared, ok: nat -> bool, who: set<string>, k: nat)
    requires IdsWithin(q.pending, who)
    ensures IdsWithin(Drained(q, ok, k).pending, who)
    ensures |Drained(q, ok, k).pending| > 0 ==> Work(Drained(q, ok, k).pending, who) + k <= Work(q.pending, who)
    ensures k >= Work(q.pending, who) ==> |Drained(q, ok, k).pending| == 0
  {
    if k > 0 {
      DrainEmptiesQueue(q, ok, who, k - 1);
      if |Drained(q, ok, k - 1).pending| > 0 {
        TurnUsesWork(Drained(q, ok, k - 1), ok(k - 1), who);
      }
    }
    WorkPositive(Drained(q, ok, k).pending, who);
  }

  lemma WorkPositive(q: seq<Event>, who: set<string>)
    requires IdsWithin(q, who)
    ensures |q| > 0 ==> Work(q, who) > 0
  {
  }

  /** How many of the first k turns were spent on transfer `id`. */
  function Turns(q: Shared, ok: nat -> bool, k: nat, id: string): nat {
    if k == 0 then 0
    else
      var before := Drained(q, ok, k - 1);
      Turns(q, ok, k - 1, id) + (if |before.pending| > 0 && before.pending[0].transferId == id then 1 else 0)
  }

  /** No transfer is attempted more often than its events allow, however long the worker runs. */
  lemma {:induction false} AttemptsBounded(q: Shared, ok: nat -> bool, k: nat, id: string)
    ensures Turns(q, ok, k, id) + Work(Drained(q, ok, k).pending, {id}) <= Work(q.pending, {id})
  {
    if k > 0 {
      AttemptsBounded(q, ok, k - 1, id);
      if |Drained(q, ok, k - 1).pending| > 0 {
        TurnUsesWork(Drained(q, ok, k - 1), ok(k - 1), {id});
      }
    }
  }

  predicate DistinctTransfers(q: seq<Event>) {
    forall a, b :: 0 <= a < b < |q| ==> q[a].transferId != q[b].transferId
  }

  /** Whose turn the worker's turn k is. */
  predicate TurnOf(q: Shared, ok: nat -> bool, k: nat, id: string) {
    var p := Drained(q, ok, k).pending;
    |p| > 0 && p[0].transferId == id
  }

  lemma HeadServed(now: seq<Event>, m: nat, before: seq<Event>, p: seq<Event>)
    requires 0 < m <= |now| && |now| - m + 1 <= |before| && before[..|now| - m + 1] == now[m - 1..]
    requires before[1..] <= p
    ensures var left := |now| - m; left <= |p| && p[..left] == now[m..]
  {
    var left := |now| - m;
    assert before[1..][..left] == before[..left + 1][1..] == now[m..];
  }

  /** From turn i on, the events then queued are served in order. */
  lemma {:induction false} RoundRobinFrom(q: Shared, ok: nat -> bool, i: nat, m: nat)
    requires m <= |Drained(q, ok, i).pending|
    ensures var now, p := Drained(q, ok, i).pending, Drained(q, ok, i + m).pending;
            var left := |now| - m;
            left <= |p| && p[..left] == now[m..]
  {
    if m > 0 {
      RoundRobinFrom(q, ok, i, m - 1);
      var now, before := Drained(q, ok, i).pending, Drained(q, ok, i + m - 1).pending;
      HeadServed(now, m, before, Drained(q, ok, i + m).pending);
    }
  }

  /** The first |pending| turns serve every event queued at the start once, in order. */
  lemma RoundRobin(q: Shared, ok: nat -> bool, k: nat)
    requires k <= |q.pending|
    ensures var p := Drained(q, ok, k).pending; var left := |q.pending| - k;
            left <= |p| && p[..left] == q.pending[k..]
  {
    RoundRobinFrom(q, ok, 0, k);
  }

  lemma ServedInOrder(q: Shared, ok: nat -> bool, i: nat, m: nat)
    requires m < |Drained(q, ok, i).pending|
    ensures var now, p := Drained(q, ok, i).pending, Drained(q, ok, i + m).pending;
            |p| > 0 && p[0] == now[m]
  {
    RoundRobinFrom(q, ok, i, m);
    var now, p := Drained(q, ok, i).pending, Drained(q, ok, i + m).pending;
    assert p[0] == p[..|now| - m][0] == now[m..][0];
  }

  lemma ServedOnce(q: Shared, ok: nat -> bool, i: nat, m: nat, j: nat)
    requires var n := |Drained(q, ok, i).pending|; m < n && i <= j < i + n
    requires DistinctTransfers(Drained(q, ok, i).pending)
    ensures TurnOf(q, ok, j, Drained(q, ok, i).pending[m].transferId) <==> j == i + m
  {
    ServedInOrder(q, ok, i, j - i);
  }

  /**
   * Two turns on one transfer lie at least a whole round apart, and in the turns between them every other
   * event queued at the first is served once: the m-th in line exactly m turns later.
   */
  lemma BetweenTurns(q: Shared, ok: nat -> bool, i: nat, k: nat, id: string)
    requires i < k && TurnOf(q, ok, i, id) && TurnOf(q, ok, k, id)
    requires DistinctTransfers(Drained(q, ok, i).pending)
    ensures var now := Drained(q, ok, i).pending;
            && i + |now| <= k
            && forall m: nat, j: nat :: 0 < m < |now| && i <= j < i + |now| ==>
                 (TurnOf(q, ok, j, now[m].transferId) <==> j == i + m)
  {
    var now := Drained(q, ok, i).pending;
    if k < i + |now| {
      ServedOnce(q, ok, i, 0, k);
    }
    forall m: nat, j: nat | 0 < m < |now| && i <= j < i + |now|
      ensures TurnOf(q, ok, j, now[m].transferId) <==> j == i + m
    {
      ServedOnce(q, ok, i, m, j);
    }
  }

  lemma FailedGoesLast(now: Shared, providerAccepts: bool)
    requires |now.pending| > 0 && Processed(now, providerAccepts).status == Pending
    ensures ProcessOne(now, providerAccepts).pending == now.pending[1..] + [Processed(now, providerAccepts)]
  {
  }

  /** A transfer whose attempt failed short of its last comes up again exactly one round later. */
  lemma NextTurn(q: Shared, ok: nat -> bool, i: nat)
    requires var now := Drained(q, ok, i);
      |now.pending| > 0 && Processed(now, ok(i)).status == Pending
    ensures var now := Drained(q, ok, i);
            var p := Drained(q, ok, i + |now.pending|).pending;
            |p| > 0 && p[0] == Processed(now, ok(i))
  {
    var now, n := Drained(q, ok, i), |Drained(q, ok, i).pending|;
    FailedGoesLast(now, ok(i));
    assert Drained(q, ok, i + 1) == ProcessOne(now, ok(i));
    ServedInOrder(q, ok, i + 1, n - 1);
  }

  // ---------------------------------------------------------------- exactly as many attempts as allowed

  /** Every turn on the transfer within the first k is one on which the provider refuses. */
  ghost predicate AlwaysRefused(q: Shared, ok: nat -> bool, k: nat, id: string) {
    forall j: nat :: j < k && TurnOf(q, ok, j, id) ==> !(ok(j) && id in q.known)
  }

  predicate HasEventFor(events: seq<Event>, id: string) {
    exists i :: 0 <= i < |events| && events[i].transferId == id
  }

  /** The event after c refused attempts. */
  function Tried(e: Event, c: nat): Event {
    if c == 0 then e
    else
      e.(retryCount := e.retryCount + c,
         status := if e.retryCount + c >= e.maxRetries then DeadLetter else Pending)
  }

  /** After c of its attempts the event waits, or is dead because these were all that it had. */
  ghost predicate WaitsOrDied(q: Shared, e: Event, c: nat) {
    && e.retryCount + c <= e.maxRetries && e.transferId !in q.tombstones && DistinctTransfers(q.pending)
    && (if e.retryCount + c < e.maxRetries
        then Tried(e, c) in q.pending && !HasEventFor(q.dead, e.transferId)
        else !HasEventFor(q.pending, e.transferId) && Tried(e, c) in q.dead)
  }

  lemma DistinctAfterTurn(q: Shared, ok: bool)
    requires |q.pending| > 0 && DistinctTransfers(q.pending)
    ensures DistinctTransfers(ProcessOne(q, ok).pending)
    ensures forall e :: e in ProcessOne(q, ok).pending ==> e in q.pending[1..] || e == AfterFailure(q.pending[0])
    ensures forall e :: e in q.pending[1..] ==> e in ProcessOne(q, ok).pending && e.transferId != q.pending[0].transferId
  {
    var rest := q.pending[1..];
    assert forall i :: 0 <= i < |rest| ==> rest[i] == q.pending[i + 1];
  }

  /** A refused turn on the event itself. */
  lemma OwnTurn(q: Shared, ok: bool, e: Event, c: nat)
    requires WaitsOrDied(q, e, c) && |q.pending| > 0 && q.pending[0].transferId == e.transferId
    requires !(ok && e.transferId in q.known)
    ensures e.retryCount + c < e.maxRetries && WaitsOrDied(ProcessOne(q, ok), e, c + 1)
  {
    DistinctAfterTurn(q, ok);
    assert HasEventFor(q.pending, e.transferId);
    assert q.pending[0] == Tried(e, c);
    var q' := ProcessOne(q, ok);
    if e.retryCount + c + 1 < e.maxRetries {
      assert q'.pending[|q'.pending| - 1] == Tried(e, c + 1);
    } else {
      assert q'.dead[|q'.dead| - 1] == Tried(e, c + 1);
    }
  }

  /** A turn on another transfer leaves this one's events where they are. */
  lemma OthersStay(q: Shared, ok: bool, id: string)
    requires |q.pending| > 0 && q.pending[0].transferId != id
    ensures HasEventFor(ProcessOne(q, ok).pending, id) ==> HasEventFor(q.pending, id)
    ensures HasEventFor(ProcessOne(q, ok).dead, id) ==> HasEventFor(q.dead, id)
  {
    var q' := ProcessOne(q, ok);
    if HasEventFor(q'.pending, id) {
      var i :| 0 <= i < |q'.pending| && q'.pending[i].transferId == id;
      assert q.pending[i + 1].transferId == id;
    }
    if HasEventFor(q'.dead, id) {
      var i :| 0 <= i < |q'.dead| && q'.dead[i].transferId == id;
      assert q.dead[i].transferId == id;
    }
  }

  lemma OthersTurn(q: Shared, ok: bool, e: Event, c: nat)
    requires WaitsOrDied(q, e, c) && |q.pending| > 0 && q.pending[0].transferId != e.transferId
    ensures WaitsOrDied(ProcessOne(q, ok), e, c)
  {
    DistinctAfterTurn(q, ok);
    OthersStay(q, ok, e.transferId);
    assert q.pending == [q.pending[0]] + q.pending[1..];
  }

  lemma AnyTurn(q: Shared, ok: bool, e: Event, c: nat)
    requires WaitsOrDied(q, e, c)
    requires |q.pending| > 0 && q.pending[0].transferId == e.transferId ==> !(ok && e.transferId in q.known)
    ensures WaitsOrDied(ProcessOne(q, ok), e,
                        if |q.pending| > 0 && q.pending[0].transferId == e.transferId then c + 1 else c)
  {
    if |q.pending| > 0 {
      if q.pending[0].transferId == e.transferId {
        OwnTurn(q, ok, e, c);
      } else {
        OthersTurn(q, ok, e, c);
      }
    }
  }

  lemma KnownStays(q: Shared, ok: nat -> bool, k: nat)
    ensures Drained(q, ok, k).known == q.known
  {
  }

  /** The last of k turns, told as a turn on the state before it. */
  lemma LastTurn(q: Shared, ok: nat -> bool, k: nat, id: string)
    requires k > 0 && AlwaysRefused(q, ok, k, id)
    ensures var before := Drained(q, ok, k - 1);
            && Drained(q, ok, k) == ProcessOne(before, ok(k - 1))
            && (|before.pending| > 0 && before.pending[0].transferId == id ==> !(ok(k - 1) && id in before.known))
            && Turns(q, ok, k, id) == Turns(q, ok, k - 1, id) +
                 (if |before.pending| > 0 && before.pending[0].transferId == id then 1 else 0)
    ensures AlwaysRefused(q, ok, k - 1, id)
  {
    KnownStays(q, ok, k - 1);
    assert TurnOf(q, ok, k - 1, id) ==> !(ok(k - 1) && id in q.known);
  }

  /** While the provider refuses, the turns spent on an event are the attempts it has used. */
  lemma {:induction false} TurnsAreAttempts(q: Shared, ok: nat -> bool, k: nat, e: Event)
    requires WaitsOrDied(q, e, 0) && AlwaysRefused(q, ok, k, e.transferId)
    ensures WaitsOrDied(Drained(q, ok, k), e, Turns(q, ok, k, e.transferId))
  {
    if k > 0 {
      LastTurn(q, ok, k, e.transferId);
      TurnsAreAttempts(q, ok, k - 1, e);
      AnyTurn(Drained(q, ok, k - 1), ok(k - 1), e, Turns(q, ok, k - 1, e.transferId));
    }
  }

  /**
   * An event that was just enqueued with n retries and is refused every time gets exactly n turns of the
   * worker: before the n-th it is not dead, and from the n-th on it is and gets no more.
   */
  lemma EnqueuedTriedExactly(
    q: Shared, queued: seq<Event>, key: string, id: string, amount: nat, n: nat, ok: nat -> bool, k: nat)
    requires n > 0 && q.pending == queued + [Event(key, id, amount, 0, n, Pending)]
    requires DistinctTransfers(q.pending) && id !in q.tombstones && !HasEventFor(q.dead, id)
    requires AlwaysRefused(q, ok, k, id)
    ensures Turns(q, ok, k, id) <= n
    ensures HasEventFor(Drained(q, ok, k).dead, id) <==> Turns(q, ok, k, id) == n
    ensures |Drained(q, ok, k).pending| == 0 ==> Turns(q, ok, k, id) == n
  {
    var e := Event(key, id, amount, 0, n, Pending);
    assert q.pending[|queued|] == e;
    TurnsAreAttempts(q, ok, k, e);
    var c, q' := Turns(q, ok, k, id), Drained(q, ok, k);
    if c == n {
      var i :| 0 <= i < |q'.dead| && q'.dead[i] == Tried(e, n);
      assert q'.dead[i].transferId == id;
    }
  }
}
