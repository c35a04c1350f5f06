/** A dead letter was refused by the provider exactly as often as its retries allow, counted over the run itself. */
module CompensationAttempts {
  import opened CompensationTypes
  import opened CompensationProtocol
  import opened CompensationSafety
  import opened CompensationHands

  /** The transfer, if any, whose reversal the provider refuses to a worker in this step. */
  function RefusedIn(s: State, a: Action): multiset<string> {
    match a
    case WorkerStep(w, ok) =>
      if w < |s.workers| && s.workers[w].Attempting? && !ProviderReverses(s, s.workers[w].e.transferId, ok)
      then multiset{s.workers[w].e.transferId} else multiset{}
    case _ => multiset{}
  }

  /** Every refusal of a run, by transfer. */
  function Refusals(s: State, actions: seq<Action>): multiset<string> {
    if |actions| == 0 then multiset{}
    else
      var before := actions[..|actions| - 1];
      Refusals(s, before) + RefusedIn(Run(s, before), actions[|actions| - 1])
  }

  /** No worker has seen the transfer yet: it is unknown, or still with its saga. */
  ghost predicate Untried(s: State, id: string) {
    id !in s.transfers || (id !in s.tombstones && AtSomeSaga(s, id))
  }

  function Spent(r: WorkerRun): nat
    requires !r.Idle?
  {
    r.e.retryCount + (if r.Failing? then 1 else 0)
  }

  /** The counter of every event is the number of refusals of its transfer. */
  ghost predicate CountersFit(s: State, refusals: multiset<string>) {
    && (forall id :: Untried(s, id) ==> refusals[id] == 0)
    && (forall j :: 0 <= j < |s.pending| ==> refusals[s.pending[j].transferId] == s.pending[j].retryCount)
    && (forall j :: 0 <= j < |s.dead| ==> refusals[s.dead[j].transferId] == s.dead[j].retryCount)
    && (forall w :: 0 <= w < |s.workers| && !s.workers[w].Idle? ==>
          refusals[s.workers[w].e.transferId] == Spent(s.workers[w]))
  }

  // ---------------------------------------------------------------- every step keeps it

  lemma UntriedBefore(s: State, s': State, id: string)
    requires Untried(s', id) && s'.transfers == s.transfers && s.tombstones <= s'.tombstones
    requires AtSomeSaga(s', id) ==> AtSomeSaga(s, id)
    ensures Untried(s, id)
  {
  }

  lemma SagaListShrinks(s: State, i: nat, ok: bool, id: string)
    requires i < |s.sagas| && |s.sagas[i].todo| > 0 && AtSomeSaga(SagaNext(s, i, ok), id)
    ensures AtSomeSaga(s, id)
  {
    var s' := SagaNext(s, i, ok);
    var x :| 0 <= x < |s'.sagas| && HasTransfer(s'.sagas[x].todo, id);
    TailKeeps(s.sagas[i].todo);
    assert HasTransfer(s.sagas[x].todo, id);
  }

  lemma SagaUntried(s: State, i: nat, ok: bool, refusals: multiset<string>)
    requires i < |s.sagas| && |s.sagas[i].todo| > 0 && CountersFit(s, refusals)
    ensures forall id :: Untried(SagaNext(s, i, ok), id) ==> refusals[id] == 0
  {
    var s' := SagaNext(s, i, ok);
    forall id | Untried(s', id) ensures refusals[id] == 0 {
      if AtSomeSaga(s', id) {
        SagaListShrinks(s, i, ok, id);
      }
      UntriedBefore(s, s', id);
    }
  }

  lemma SagaEvents(s: State, i: nat, ok: bool)
    requires i < |s.sagas| && |s.sagas[i].todo| > 0
    ensures var s', t := SagaNext(s, i, ok), s.sagas[i].todo[0];
            && s'.dead == s.dead && s'.workers == s.workers
            && s'.pending ==
               s.pending + (if s.sagas[i].phase == EnqueuePushing then [NewEvent(t, s.maxRetries)] else [])
  {
  }

  lemma SagaCounts(s: State, at: map<string, Place>, i: nat, ok: bool, refusals: multiset<string>)
    requires SagaReady(s, at, i) && CountersFit(s, refusals)
    ensures CountersFit(SagaNext(s, i, ok), refusals)
  {
    var t := s.sagas[i].todo[0];
    SagaUntried(s, i, ok, refusals);
    SagaEvents(s, i, ok);
    if s.sagas[i].phase == EnqueuePushing {
      HeadOwned(s, at, i);
      assert HasTransfer(s.sagas[i].todo, t.id);
      assert Untried(s, t.id);
    }
  }

  /** A transfer that no worker has seen is with no worker. */
  lemma UntriedIsAtSaga(s: State, at: map<string, Place>, id: string)
    requires Invariant(s, at) && Untried(s, id)
    ensures id !in at || at[id].AtSaga?
  {
    if id in s.transfers {
      var i :| 0 <= i < |s.sagas| && HasTransfer(s.sagas[i].todo, id);
    }
  }

  lemma WorkerUntried(s: State, w: nat, ok: bool, refusals: multiset<string>)
    requires w < |s.workers| && CountersFit(s, refusals)
    ensures forall id :: Untried(WorkerNext(s, w, ok), id) ==> refusals[id] == 0
  {
    var s' := WorkerNext(s, w, ok);
    forall id | Untried(s', id) ensures refusals[id] == 0 {
      UntriedBefore(s, s', id);
    }
  }

  /** A refusal is counted for the worker's own event and for no other. */
  lemma RefusalCounts(s: State, at: map<string, Place>, w: nat, refusals: multiset<string>)
    requires Invariant(s, at) && w < |s.workers| && s.workers[w].Attempting? && CountersFit(s, refusals)
    ensures var e := s.workers[w].e;
            CountersFit(Become(s, w, Failing(e)), refusals + multiset{e.transferId})
  {
    var e := s.workers[w].e;
    var s', id := Become(s, w, Failing(e)), e.transferId;
    assert at[id] == AtWorker(w);
    forall x | Untried(s', x) ensures (refusals + multiset{id})[x] == 0 {
      UntriedBefore(s, s', x);
      UntriedIsAtSaga(s, at, x);
    }
  }

  /** The event of a failed attempt is one refusal older where it is put. */
  lemma FailedCounts(s: State, w: nat, ok: bool, refusals: multiset<string>)
    requires w < |s.workers| && s.workers[w].Failing? && CountersFit(s, refusals)
    ensures CountersFit(WorkerNext(s, w, ok), refusals)
  {
    WorkerUntried(s, w, ok, refusals);
    var f := AfterFailure(s.workers[w].e);
    assert refusals[f.transferId] == f.retryCount;
  }

  lemma OtherWorkerSteps(s: State, w: nat, ok: bool, refusals: multiset<string>)
    requires w < |s.workers| && CountersFit(s, refusals) && !s.workers[w].Failing?
    requires s.workers[w].Attempting? ==> ProviderReverses(s, s.workers[w].e.transferId, ok)
    ensures CountersFit(WorkerNext(s, w, ok), refusals)
  {
    WorkerUntried(s, w, ok, refusals);
    var s' := WorkerNext(s, w, ok);
    assert s'.dead == s.dead && (s'.pending == s.pending || s'.pending == s.pending[1..]);
  }

  lemma WorkerCounts(s: State, at: map<string, Place>, w: nat, ok: bool, refusals: multiset<string>)
    requires Invariant(s, at) && w < |s.workers| && CountersFit(s, refusals)
    ensures CountersFit(WorkerNext(s, w, ok), refusals + RefusedIn(s, WorkerStep(w, ok)))
  {
    if s.workers[w].Attempting? && !ProviderReverses(s, s.workers[w].e.transferId, ok) {
      RefusalCounts(s, at, w, refusals);
    } else {
      assert refusals + multiset{} == refusals;
      if s.workers[w].Failing? {
        FailedCounts(s, w, ok, refusals);
      } else {
        OtherWorkerSteps(s, w, ok, refusals);
      }
    }
  }

  lemma BegunListed(s: State, ts: seq<Transfer>, id: string)
    requires CanBegin(s, ts)
    ensures AtSomeSaga(Begun(s, ts), id) ==>
            AtSomeSaga(s, id) || id !in s.transfers || id in s.tombstones
  {
    ReverseKeeps(ts);
    var s' := Begun(s, ts);
    if AtSomeSaga(s', id) {
      var i :| 0 <= i < |s'.sagas| && HasTransfer(s'.sagas[i].todo, id);
      if i < |s.sagas| {
        assert HasTransfer(s.sagas[i].todo, id);
      } else {
        var k :| 0 <= k < |ts| && ts[k].id == id;
      }
    }
  }

  lemma BeginCounts(s: State, ts: seq<Transfer>, refusals: multiset<string>)
    requires CanBegin(s, ts) && CountersFit(s, refusals)
    ensures CountersFit(Begun(s, ts), refusals)
  {
    forall id | Untried(Begun(s, ts), id) ensures refusals[id] == 0 {
      BegunListed(s, ts, id);
      assert Untried(s, id);
    }
  }

  lemma StepCounts(s: State, at: map<string, Place>, a: Action, refusals: multiset<string>)
    requires Invariant(s, at) && CountersFit(s, refusals)
    ensures CountersFit(Next(s, a), refusals + RefusedIn(s, a))
  {
    assert refusals + multiset{} == refusals;
    match a
    case BeginRollback(ts) => if CanBegin(s, ts) { BeginCounts(s, ts, refusals); }
    case SagaStep(i, ok) => if i < |s.sagas| && |s.sagas[i].todo| > 0 { SagaCounts(s, at, i, ok, refusals); }
    case WorkerStep(w, ok) => if w < |s.workers| { WorkerCounts(s, at, w, ok, refusals); }
  }

  lemma {:induction false} RunCounts(workers: nat, maxRetries: nat, actions: seq<Action>)
    requires maxRetries > 0
    ensures CountersFit(Run(Start(workers, maxRetries), actions), Refusals(Start(workers, maxRetries), actions))
  {
    if |actions| > 0 {
      var before := actions[..|actions| - 1];
      RunCounts(workers, maxRetries, before);
      var at := RunKeeps(workers, maxRetries, before);
      StepCounts(Run(Start(workers, maxRetries), before), at, actions[|actions| - 1],
                 Refusals(Start(workers, maxRetries), before));
    }
  }

  /**
   * In every run the provider has refused a dead letter to a worker exactly maxRetries times, and a pending
   * event fewer times.
   */
  lemma DeadLettersRefusedExactly(workers: nat, maxRetries: nat, actions: seq<Action>)
    requires maxRetries > 0
    ensures var s, refusals := Run(Start(workers, maxRetries), actions), Refusals(Start(workers, maxRetries), actions);
            && (forall j :: 0 <= j < |s.dead| ==> refusals[s.dead[j].transferId] == maxRetries)
            && (forall j :: 0 <= j < |s.pending| ==> refusals[s.pending[j].transferId] < maxRetries)
  {
    RunCounts(workers, maxRetries, actions);
    RetriesExhausted(workers, maxRetries, actions);
  }
}
