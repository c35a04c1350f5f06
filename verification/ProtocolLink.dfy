/** Left uninterrupted, the protocol steps of a rollback or a worker add up to what the method does. */
module ProtocolLink {
  import opened Paise
  import opened CompensationTypes
  import opened RouteProvider
  import opened CompensationQueue
  import opened Rollback
  import C = CompensationProtocol

  /** The protocol state and the shared storage agree. */
  ghost predicate Shows(s: C.State, q: Shared) {
    && s.pending == q.pending && s.dead == q.dead && s.tombstones == q.tombstones
    && s.records == q.records.Keys && s.transfers.Keys == q.known
    && s.reversals == multiset(q.reversals)
  }

  /** n consecutive steps of one saga. */
  function SagaSteps(s: C.State, i: nat, ok: bool, n: nat): C.State {
    if n == 0 then s else C.Next(SagaSteps(s, i, ok, n - 1), C.SagaStep(i, ok))
  }

  function WorkerSteps(s: C.State, w: nat, ok: bool, n: nat): C.State {
    if n == 0 then s else C.Next(WorkerSteps(s, w, ok, n - 1), C.WorkerStep(w, ok))
  }

  /** After m steps the saga has been refused its reversal: the queue remembers the transfer already. */
  lemma AlreadyQueued(s0: C.State, s: C.State, q: Shared, i: nat, ok: bool, m: nat)
    requires s == SagaSteps(s0, i, ok, m)
    requires Shows(s, q) && i < |s.sagas| && |s.sagas[i].todo| > 0 && s.sagas[i].phase == C.EnqueueLookup
    requires ReversalKey(s.sagas[i].todo[0].id) in s.records
    ensures var s' := SagaSteps(s0, i, ok, m + 1);
            && Shows(s', q) && s'.maxRetries == s.maxRetries
            && s'.sagas == s.sagas[i := C.SagaRun(s.sagas[i].todo[1..], C.Checking)]
  {
  }

  /** It does not: the saga records and pushes an event. */
  lemma RecordsAndPushes(s0: C.State, s: C.State, q: Shared, i: nat, ok: bool, m: nat)
    requires s == SagaSteps(s0, i, ok, m)
    requires Shows(s, q) && i < |s.sagas| && |s.sagas[i].todo| > 0 && s.sagas[i].phase == C.EnqueueLookup
    requires ReversalKey(s.sagas[i].todo[0].id) !in s.records
    ensures var s', t := SagaSteps(s0, i, ok, m + 3), s.sagas[i].todo[0];
            var event := NewEvent(t, s.maxRetries);
            && Shows(s', q.(pending := q.pending + [event], records := q.records[ReversalKey(t.id) := event]))
            && s'.maxRetries == s.maxRetries
            && s'.sagas == s.sagas[i := C.SagaRun(s.sagas[i].todo[1..], C.Checking)]
  {
    var t := s.sagas[i].todo[0];
    var s1 := SagaSteps(s0, i, ok, m + 1);
    assert s1 == C.Stay(s, i, C.EnqueueRecording);
    var s2 := SagaSteps(s0, i, ok, m + 2);
    assert s2 == C.Stay(s1, i, C.EnqueuePushing).(records := s.records + {ReversalKey(t.id)});
    assert SagaSteps(s0, i, ok, m + 3) == C.Advance(s2, i).(pending := s.pending + [NewEvent(t, s.maxRetries)]);
  }

  lemma StayShape(s: C.State, q: Shared, i: nat, p: C.Phase, r: C.SagaRun)
    requires Shows(s, q) && i < |s.sagas|
    ensures var s' := C.Stay(s, i, p);
            && Shows(s', q) && |s'.sagas| == |s.sagas|
            && s'.sagas[i].todo == s.sagas[i].todo && s'.sagas[i].phase == p && s'.sagas[i := r] == s.sagas[i := r]
            && s'.maxRetries == s.maxRetries && s'.records == s.records
  {
  }

  lemma RefusedCompensation(q: Shared, t: Transfer, ok: bool, maxRetries: nat)
    requires t.id !in q.tombstones && !(ok && t.id in q.known) && Recordable(t.amount, maxRetries)
    ensures CompensateOne(q, t, ok, maxRetries) ==
      if ReversalKey(t.id) in q.records then q
      else
        var event := NewEvent(t, maxRetries);
        q.(pending := q.pending + [event], records := q.records[ReversalKey(t.id) := event])
  {
  }

  /** The rest of a refused turn, once its first m steps are known. */
  lemma QueuedAtLast(s: C.State, s3: C.State, q: Shared, i: nat, ok: bool, m: nat) returns (n: nat)
    requires s3 == SagaSteps(s, i, ok, m)
    requires Shows(s3, q) && i < |s3.sagas| && |s3.sagas[i].todo| > 0 && s3.sagas[i].phase == C.EnqueueLookup
    ensures var s', t := SagaSteps(s, i, ok, n), s3.sagas[i].todo[0];
            var event := NewEvent(t, s3.maxRetries);
            && Shows(s', if ReversalKey(t.id) in q.records then q
                         else q.(pending := q.pending + [event], records := q.records[ReversalKey(t.id) := event]))
            && s'.maxRetries == s3.maxRetries
            && s'.sagas == s3.sagas[i := C.SagaRun(s3.sagas[i].todo[1..], C.Checking)]
  {
    if ReversalKey(s3.sagas[i].todo[0].id) in s3.records {
      n := m + 1;
      AlreadyQueued(s, s3, q, i, ok, m);
    } else {
      n := m + 3;
      RecordsAndPushes(s, s3, q, i, ok, m);
    }
  }

  lemma RefusedThenQueued(s: C.State, q: Shared, i: nat, ok: bool) returns (n: nat)
    requires Shows(s, q) && i < |s.sagas| && |s.sagas[i].todo| > 0 && s.sagas[i].phase == C.Checking
    requires var t := s.sagas[i].todo[0];
      t.id !in s.tombstones && !C.ProviderReverses(s, t.id, ok) && Recordable(t.amount, s.maxRetries)
    ensures var s' := SagaSteps(s, i, ok, n);
            && Shows(s', CompensateOne(q, s.sagas[i].todo[0], ok, s.maxRetries)) && s'.maxRetries == s.maxRetries
            && s'.sagas == s.sagas[i := C.SagaRun(s.sagas[i].todo[1..], C.Checking)]
  {
    var m := ReversalRefused(s, q, i, ok);
    StayShape(s, q, i, C.EnqueueLookup, C.SagaRun(s.sagas[i].todo[1..], C.Checking));
    RefusedCompensation(q, s.sagas[i].todo[0], ok, s.maxRetries);
    n := QueuedAtLast(s, C.Stay(s, i, C.EnqueueLookup), q, i, ok, m);
  }

  lemma SkipsCompensated(s: C.State, q: Shared, i: nat, ok: bool)
    requires Shows(s, q) && i < |s.sagas| && |s.sagas[i].todo| > 0 && s.sagas[i].phase == C.Checking
    requires s.sagas[i].todo[0].id in s.tombstones
    ensures var s' := SagaSteps(s, i, ok, 1);
            && Shows(s', CompensateOne(q, s.sagas[i].todo[0], ok, s.maxRetries)) && s'.maxRetries == s.maxRetries
            && s'.sagas == s.sagas[i := C.SagaRun(s.sagas[i].todo[1..], C.Checking)]
  {
    assert SagaSteps(s, i, ok, 0) == s;
  }

  lemma ReversesAndMarks(s: C.State, q: Shared, i: nat, ok: bool)
    requires Shows(s, q) && i < |s.sagas| && |s.sagas[i].todo| > 0 && s.sagas[i].phase == C.Checking
    requires var t := s.sagas[i].todo[0]; t.id !in s.tombstones && C.ProviderReverses(s, t.id, ok)
    ensures var s' := SagaSteps(s, i, ok, 3);
            && Shows(s', CompensateOne(q, s.sagas[i].todo[0], ok, s.maxRetries)) && s'.maxRetries == s.maxRetries
            && s'.sagas == s.sagas[i := C.SagaRun(s.sagas[i].todo[1..], C.Checking)]
  {
    var t := s.sagas[i].todo[0];
    assert SagaSteps(s, i, ok, 0) == s;
    var s1 := SagaSteps(s, i, ok, 1);
    assert s1 == C.Stay(s, i, C.Reversing);
    var s2 := SagaSteps(s, i, ok, 2);
    assert s2 == C.Stay(s1, i, C.Marking).(reversals := s.reversals + multiset{t});
    assert SagaSteps(s, i, ok, 3) == C.Advance(s2, i).(tombstones := s.tombstones + {t.id});
    assert s2.sagas[i].todo == s.sagas[i].todo;
  }

  lemma ReversalRefused(s: C.State, q: Shared, i: nat, ok: bool) returns (m: nat)
    requires Shows(s, q) && i < |s.sagas| && |s.sagas[i].todo| > 0 && s.sagas[i].phase == C.Checking
    requires var t := s.sagas[i].todo[0];
      t.id !in s.tombstones && !C.ProviderReverses(s, t.id, ok) && t.amount <= MAX_PAISE
    ensures SagaSteps(s, i, ok, m) == C.Stay(s, i, C.EnqueueLookup)
  {
    m := 3;
    assert SagaSteps(s, i, ok, 0) == s;
    assert SagaSteps(s, i, ok, 1) == C.Stay(s, i, C.Reversing);
    assert SagaSteps(s, i, ok, 2) == C.Stay(s, i, C.EnqueueChecking) by {
      assert C.Stay(C.Stay(s, i, C.Reversing), i, C.EnqueueChecking) == C.Stay(s, i, C.EnqueueChecking);
    }
    assert C.Stay(C.Stay(s, i, C.EnqueueChecking), i, C.EnqueueLookup) == C.Stay(s, i, C.EnqueueLookup);
  }

  /** The queue refuses an amount beyond the largest it can record. */
  lemma RefusedThenLost(s: C.State, q: Shared, i: nat, ok: bool)
    requires Shows(s, q) && i < |s.sagas| && |s.sagas[i].todo| > 0 && s.sagas[i].phase == C.Checking
    requires var t := s.sagas[i].todo[0];
      t.id !in s.tombstones && !C.ProviderReverses(s, t.id, ok) && t.amount > MAX_PAISE
    ensures var s' := SagaSteps(s, i, ok, 2);
            && Shows(s', CompensateOne(q, s.sagas[i].todo[0], ok, s.maxRetries)) && s'.maxRetries == s.maxRetries
            && s'.sagas == s.sagas[i := C.SagaRun(s.sagas[i].todo[1..], C.Checking)]
  {
    var s1 := C.Stay(s, i, C.Reversing);
    assert SagaSteps(s, i, ok, 0) == s;
    assert SagaSteps(s, i, ok, 1) == s1;
    assert SagaSteps(s, i, ok, 2) == C.Advance(s1, i).(lost := s.lost + {s.sagas[i].todo[0].id});
  }

  /** A saga's uninterrupted steps on one transfer compensate it as `compensateTransfers` does. */
  lemma SagaTurn(s: C.State, q: Shared, i: nat, ok: bool) returns (n: nat)
    requires Shows(s, q) && i < |s.sagas| && |s.sagas[i].todo| > 0 && s.sagas[i].phase == C.Checking
    requires s.maxRetries > 0
    ensures var s' := SagaSteps(s, i, ok, n);
            && Shows(s', CompensateOne(q, s.sagas[i].todo[0], ok, s.maxRetries)) && s'.maxRetries == s.maxRetries
            && s'.sagas == s.sagas[i := C.SagaRun(s.sagas[i].todo[1..], C.Checking)]
  {
    var t := s.sagas[i].todo[0];
    if t.id in s.tombstones {
      n := 1;
      SkipsCompensated(s, q, i, ok);
    } else if C.ProviderReverses(s, t.id, ok) {
      n := 3;
      ReversesAndMarks(s, q, i, ok);
    } else if t.amount > MAX_PAISE {
      n := 2;
      RefusedThenLost(s, q, i, ok);
    } else {
      n := RefusedThenQueued(s, q, i, ok);
    }
  }

  // ---------------------------------------------------------------- a whole rollback

  lemma {:induction false} StepsAreRun(s: C.State, i: nat, ok: bool, n: nat)
    ensures C.Run(s, seq(n, _ => C.SagaStep(i, ok))) == SagaSteps(s, i, ok, n)
  {
    if n > 0 {
      StepsAreRun(s, i, ok, n - 1);
      assert seq(n, _ => C.SagaStep(i, ok))[..n - 1] == seq(n - 1, _ => C.SagaStep(i, ok));
    }
  }

  function AsTransfers(completed: seq<RouteTransfer>): (r: seq<Transfer>)
    ensures |r| == |completed|
  {
    seq(|completed|, j requires 0 <= j < |completed| => AsTransfer(completed[j]))
  }

  lemma TodoHead(completed: seq<RouteTransfer>, k: nat)
    requires k < |completed|
    ensures var todo := C.Reverse(AsTransfers(completed))[k..];
            todo[0] == AsTransfer(FromEnd(completed, k)) && todo[1..] == C.Reverse(AsTransfers(completed))[k + 1..]
  {
  }

  /** The first k legs of a rollback, as protocol steps. */
  lemma {:induction false} RollbackRun(
    s: C.State, q: Shared, i: nat, completed: seq<RouteTransfer>, ok: nat -> bool, k: nat)
    returns (actions: seq<C.Action>)
    requires Shows(s, q) && i < |s.sagas| && k <= |completed|
    requires s.sagas[i] == C.SagaRun(C.Reverse(AsTransfers(completed)), C.Checking)
    requires s.maxRetries > 0
    ensures var s' := C.Run(s, actions);
            && Shows(s', CompensateTo(q, completed, ok, s.maxRetries, k)) && s'.maxRetries == s.maxRetries
            && s'.sagas == s.sagas[i := C.SagaRun(C.Reverse(AsTransfers(completed))[k..], C.Checking)]
  {
    if k == 0 {
      actions := [];
      assert C.Reverse(AsTransfers(completed))[0..] == C.Reverse(AsTransfers(completed));
      assert s.sagas[i := s.sagas[i]] == s.sagas;
    } else {
      actions := RollbackRun(s, q, i, completed, ok, k - 1);
      actions := OneMoreLeg(s, C.Run(s, actions), q, i, completed, ok, k - 1, actions);
    }
  }

  lemma OneMoreLeg(
    s0: C.State, s: C.State, q: Shared, i: nat, completed: seq<RouteTransfer>, ok: nat -> bool, k: nat,
    before: seq<C.Action>)
    returns (actions: seq<C.Action>)
    requires k < |completed| && i < |s0.sagas| && s == C.Run(s0, before) && s.maxRetries == s0.maxRetries
    requires Shows(s, CompensateTo(q, completed, ok, s.maxRetries, k))
    requires s.sagas == s0.sagas[i := C.SagaRun(C.Reverse(AsTransfers(completed))[k..], C.Checking)]
    requires s.maxRetries > 0
    ensures var s' := C.Run(s0, actions);
            && Shows(s', CompensateTo(q, completed, ok, s.maxRetries, k + 1)) && s'.maxRetries == s.maxRetries
            && s'.sagas == s0.sagas[i := C.SagaRun(C.Reverse(AsTransfers(completed))[k + 1..], C.Checking)]
  {
    TodoHead(completed, k);
    var n := SagaTurn(s, CompensateTo(q, completed, ok, s.maxRetries, k), i, ok(k));
    StepsAreRun(s, i, ok(k), n);
    actions := before + seq(n, _ => C.SagaStep(i, ok(k)));
    C.RunAppend(s0, before, seq(n, _ => C.SagaStep(i, ok(k))));
  }

  /** `compensateTransfers` run by itself is one of the protocol's interleavings. */
  lemma RollbackIsARun(s: C.State, q: Shared, completed: seq<RouteTransfer>, ok: nat -> bool)
    requires C.CanBegin(s, AsTransfers(completed))
    requires Shows(C.Next(s, C.BeginRollback(AsTransfers(completed))), q)
    requires s.maxRetries > 0
    ensures exists actions ::
      && Shows(C.Run(s, actions), CompensateTo(q, completed, ok, s.maxRetries, |completed|))
      && |C.Run(s, actions).sagas| == |s.sagas| + 1 && |C.Run(s, actions).sagas[|s.sagas|].todo| == 0
  {
    var begin := C.BeginRollback(AsTransfers(completed));
    var s' := C.Next(s, begin);
    var more := RollbackRun(s', q, |s.sagas|, completed, ok, |completed|);
    C.RunAppend(s, [begin], more);
    assert [begin][..0] == [] && C.Run(s, []) == s;
    assert C.Run(s, [begin]) == s';
    assert Shows(C.Run(s, [begin] + more), CompensateTo(q, completed, ok, s.maxRetries, |completed|));
  }

  // ---------------------------------------------------------------- a worker's turn

  lemma WorkerDrops(s: C.State, q: Shared, w: nat, ok: bool)
    requires Shows(s, q) && w < |s.workers| && s.workers[w].Idle? && |q.pending| > 0
    requires q.pending[0].transferId in q.tombstones
    ensures var s' := WorkerSteps(s, w, ok, 2); Shows(s', ProcessOne(q, ok)) && s'.workers == s.workers
  {
    assert WorkerSteps(s, w, ok, 0) == s;
    assert WorkerSteps(s, w, ok, 1) == C.Become(s, w, C.Popped(q.pending[0])).(pending := s.pending[1..]);
    assert s.workers[w := C.Popped(q.pending[0])][w := C.Idle] == s.workers;
  }

  lemma WorkerTries(s: C.State, q: Shared, w: nat, ok: bool)
    requires Shows(s, q) && w < |s.workers| && s.workers[w].Idle? && |q.pending| > 0
    requires q.pending[0].transferId !in q.tombstones
    ensures WorkerSteps(s, w, ok, 2) == C.Become(s, w, C.Attempting(q.pending[0])).(pending := s.pending[1..])
  {
    var e := q.pending[0];
    assert WorkerSteps(s, w, ok, 0) == s;
    assert WorkerSteps(s, w, ok, 1) == C.Become(s, w, C.Popped(e)).(pending := s.pending[1..]);
    assert s.workers[w := C.Popped(e)][w := C.Attempting(e)] == s.workers[w := C.Attempting(e)];
  }

  lemma WorkerAttempts(s: C.State, s2: C.State, w: nat, ok: bool, e: Event)
    requires s2 == WorkerSteps(s, w, ok, 2) && w < |s2.workers| && s2.workers[w] == C.Attempting(e)
    ensures WorkerSteps(s, w, ok, 3) ==
      if C.ProviderReverses(s2, e.transferId, ok) then
        C.Become(s2, w, C.Recording(e)).(reversals := s2.reversals + multiset{Transfer(e.transferId, e.amountPaise)})
      else C.Become(s2, w, C.Failing(e))
  {
  }

  lemma WorkerPuts(s: C.State, s3: C.State, w: nat, ok: bool, e: Event)
    requires s3 == WorkerSteps(s, w, ok, 3) && w < |s3.workers|
    requires s3.workers[w] == C.Recording(e) || s3.workers[w] == C.Failing(e)
    ensures WorkerSteps(s, w, ok, 4) ==
      if s3.workers[w].Recording? then C.Become(s3, w, C.Idle).(tombstones := s3.tombstones + {e.transferId})
      else if e.retryCount + 1 >= e.maxRetries then C.Become(s3, w, C.Idle).(dead := s3.dead + [AfterFailure(e)])
      else C.Become(s3, w, C.Idle).(pending := s3.pending + [AfterFailure(e)])
  {
  }

  lemma WorkerFinishes(s: C.State, q: Shared, w: nat, ok: bool)
    requires Shows(s, q) && w < |s.workers| && s.workers[w].Idle? && |q.pending| > 0
    requires q.pending[0].transferId !in q.tombstones
    ensures var s' := WorkerSteps(s, w, ok, 4); Shows(s', ProcessOne(q, ok)) && s'.workers == s.workers
  {
    var e := q.pending[0];
    WorkerTries(s, q, w, ok);
    WorkerAttempts(s, WorkerSteps(s, w, ok, 2), w, ok, e);
    var s3 := WorkerSteps(s, w, ok, 3);
    WorkerPuts(s, s3, w, ok, e);
    assert s3.workers[w := C.Idle] == s.workers;
  }

  /** `processNext` run by itself is two or four steps of an idle worker. */
  lemma WorkerTurnIsARun(s: C.State, q: Shared, w: nat, ok: bool)
    requires Shows(s, q) && w < |s.workers| && s.workers[w].Idle? && |q.pending| > 0
    ensures exists n ::
      Shows(WorkerSteps(s, w, ok, n), ProcessOne(q, ok)) && WorkerSteps(s, w, ok, n).workers == s.workers
  {
    if q.pending[0].transferId in q.tombstones {
      WorkerDrops(s, q, w, ok);
      assert Shows(WorkerSteps(s, w, ok, 2), ProcessOne(q, ok));
    } else {
      WorkerFinishes(s, q, w, ok);
      assert Shows(WorkerSteps(s, w, ok, 4), ProcessOne(q, ok));
    }
  }
}
