/** Rolling back once more a transfer that ended as a dead letter or was lost: two places, but one reversal. */
module CompensationMoney {
  import opened CompensationTypes
  import opened CompensationProtocol
  import opened CompensationSafety
  import opened CompensationHands

  /** The protocol in which a rollback also begins with dead letters and lost legs. */
  ghost function LooseNext(s: State, a: Action): State {
    match a
    case BeginRollback(completed) => if LegsOf(s, completed) && NoneInHand(s, completed) then Begun(s, completed) else s
    case _ => Next(s, a)
  }

  ghost function LooseRun(s: State, actions: seq<Action>): State {
    if |actions| == 0 then s else LooseNext(LooseRun(s, actions[..|actions| - 1]), actions[|actions| - 1])
  }

  // ---------------------------------------------------------------- beginning a rollback

  /** The new saga takes every leg that is not compensated. */
  function TakenBy(at: map<string, Place>, ts: seq<Transfer>, i: nat): map<string, Place> {
    map id | id in at.Keys + Created(ts).Keys ::
      if id in at && (id !in Created(ts) || at[id] == Done) then at[id] else AtSaga(i)
  }

  lemma OwnedIsInHand(s: State, at: map<string, Place>, id: string)
    requires MoneyFits(s, at) && id in at
    ensures at[id].AtSaga? || at[id] == InQueue || at[id].AtWorker? ==> InHand(s, id)
  {
    if at[id].AtWorker? {
      var w := at[id].worker;
      assert Trying(s.workers)[w] == s.workers[w];
      assert Holds(s.workers[w], id) && !GivingUp(s.workers[w]);
    }
  }

  /** Nobody has a leg that may begin again. */
  lemma NobodyHas(s: State, at: map<string, Place>, ts: seq<Transfer>, id: string)
    requires MoneyFits(s, at) && LegsOf(s, ts) && NoneInHand(s, ts) && id in at && id in Created(ts)
    ensures at[id] == Done || at[id] == Lost || at[id] == InDeadLetter
  {
    CreatedEntries(ts);
    var k :| 0 <= k < |ts| && ts[k].id == id;
    OwnedIsInHand(s, at, ts[k].id);
  }

  lemma BeginSagas(s: State, at: map<string, Place>, ts: seq<Transfer>)
    requires MoneyFits(s, at) && LegsOf(s, ts) && NoneInHand(s, ts)
    ensures SagaOwn(s.sagas + [SagaRun(Reverse(ts), Checking)], TakenBy(at, ts, |s.sagas|))
  {
    var i, at', todo := |s.sagas|, TakenBy(at, ts, |s.sagas|), Reverse(ts);
    CreatedEntries(ts);
    ReverseKeeps(ts);
    forall id | id in at && id in Created(ts) ensures at[id] == Done || at[id] == Lost || at[id] == InDeadLetter {
      NobodyHas(s, at, ts, id);
    }
    var kept := map id | id in at && at'[id] == at[id] :: at[id];
    SagaOwnRestrict(s.sagas, at, kept);
    forall j | 0 <= j < |todo|
      ensures todo[j].id in at' && (at'[todo[j].id] == AtSaga(i) || at'[todo[j].id] == Done)
    {
      assert todo[j] == ts[|ts| - 1 - j] && todo[j].id in Created(ts);
    }
    SagaOwnAppend(s.sagas, kept, todo, at');
  }

  lemma SagaOwnRestrict(sagas: seq<SagaRun>, at: map<string, Place>, kept: map<string, Place>)
    requires SagaOwn(sagas, at)
    requires forall id :: id in kept ==> id in at && kept[id] == at[id]
    requires forall id :: id in at && id !in kept ==> !at[id].AtSaga? && at[id] != Done
    ensures SagaOwn(sagas, kept)
  {
  }

  /** Only what nobody has goes to the new saga. */
  ghost predicate OnlyFreeTaken(at: map<string, Place>, at': map<string, Place>) {
    && (forall id :: id in at ==> id in at')
    && (forall id :: id in at && at'[id] != at[id] ==> (at[id] == Lost || at[id] == InDeadLetter) && at'[id].AtSaga?)
    && (forall id :: id in at' && id !in at ==> at'[id].AtSaga?)
  }

  lemma FreeTakenQueue(q: seq<Event>, at: map<string, Place>, at': map<string, Place>)
    requires QueueOwn(q, at, InQueue) && OnlyFreeTaken(at, at')
    ensures QueueOwn(q, at', InQueue)
  {
  }

  lemma FreeTakenWorkers(workers: seq<WorkerRun>, at: map<string, Place>, at': map<string, Place>)
    requires WorkerOwn(workers, at) && OnlyFreeTaken(at, at')
    ensures WorkerOwn(workers, at')
  {
  }

  lemma FreeTakenTombstones(tombstones: set<string>, at: map<string, Place>, at': map<string, Place>)
    requires TombstonesMark(tombstones, at) && OnlyFreeTaken(at, at')
    ensures TombstonesMark(tombstones, at')
  {
  }

  lemma BeginHands(s: State, at: map<string, Place>, ts: seq<Transfer>)
    requires MoneyFits(s, at) && LegsOf(s, ts) && NoneInHand(s, ts)
    ensures HandsFit(Begun(s, ts), TakenBy(at, ts, |s.sagas|))
  {
    var at' := TakenBy(at, ts, |s.sagas|);
    forall id | id in at && id in Created(ts) ensures at[id] == Done || at[id] == Lost || at[id] == InDeadLetter {
      NobodyHas(s, at, ts, id);
    }
    BeginSagas(s, at, ts);
    FreeTakenQueue(s.pending, at, at');
    FreeTakenWorkers(Trying(s.workers), at, at');
    FreeTakenTombstones(s.tombstones, at, at');
  }

  lemma BeginReversals(s: State, at: map<string, Place>, ts: seq<Transfer>)
    requires MoneyFits(s, at) && LegsOf(s, ts) && NoneInHand(s, ts)
    ensures var s' := Begun(s, ts);
            ReversalsFit(s'.sagas, s'.workers, s'.transfers, s'.reversals, TakenBy(at, ts, |s.sagas|))
  {
    BeginTransfers(s, ts);
    var s', at' := Begun(s, ts), TakenBy(at, ts, |s.sagas|);
    forall id | id in at' && id in s'.transfers
      ensures s'.reversals[Transfer(id, s'.transfers[id])] ==
              (if Settled(s'.sagas, s'.workers, id, at'[id]) then 1 else 0)
    {
      if id in at {
        if id in Created(ts) {
          NobodyHas(s, at, ts, id);
        }
        assert Settled(s'.sagas, s'.workers, id, at'[id]) <==> Settled(s.sagas, s.workers, id, at[id]);
      } else {
        assert Transfer(id, s'.transfers[id]) !in s.reversals;
      }
    }
  }

  lemma BeginKeepsMoney(s: State, at: map<string, Place>, ts: seq<Transfer>)
    requires MoneyFits(s, at) && LegsOf(s, ts) && NoneInHand(s, ts)
    ensures MoneyFits(Begun(s, ts), TakenBy(at, ts, |s.sagas|))
  {
    BeginHands(s, at, ts);
    BeginTransfers(s, ts);
    FiguresAppend(s, Reverse(ts), s.transfers + Created(ts));
    BeginReversals(s, at, ts);
  }

  // ---------------------------------------------------------------- all runs

  lemma LooseStepKeeps(s: State, at: map<string, Place>, a: Action) returns (at': map<string, Place>)
    requires MoneyFits(s, at)
    ensures MoneyFits(LooseNext(s, a), at')
  {
    at' := at;
    match a
    case BeginRollback(ts) =>
      if LegsOf(s, ts) && NoneInHand(s, ts) { BeginKeepsMoney(s, at, ts); at' := TakenBy(at, ts, |s.sagas|); }
    case SagaStep(i, ok) => if i < |s.sagas| && |s.sagas[i].todo| > 0 { at' := SagaStepKeepsMoney(s, at, i, ok); }
    case WorkerStep(w, ok) => if w < |s.workers| { at' := WorkerStepKeepsMoney(s, at, w, ok); }
  }

  lemma {:induction false} LooseRunKeeps(s: State, at: map<string, Place>, actions: seq<Action>)
    returns (at': map<string, Place>)
    requires MoneyFits(s, at)
    ensures MoneyFits(LooseRun(s, actions), at')
  {
    if |actions| == 0 {
      at' := at;
    } else {
      at' := LooseRunKeeps(s, at, actions[..|actions| - 1]);
      at' := LooseStepKeeps(LooseRun(s, actions[..|actions| - 1]), at', actions[|actions| - 1]);
    }
  }

  lemma StartFitsMoney(workers: nat, maxRetries: nat)
    requires maxRetries > 0
    ensures MoneyFits(Start(workers, maxRetries), map[])
  {
  }

  /** Every transfer has been reversed at most once, and exactly once when its tombstone is set. */
  ghost predicate ReversedOnce(s: State) {
    && (forall t :: s.reversals[t] <= 1)
    && (forall id :: id in s.tombstones ==> id in s.transfers && s.reversals[Transfer(id, s.transfers[id])] == 1)
  }

  lemma FitsReversedOnce(s: State, at: map<string, Place>)
    requires MoneyFits(s, at)
    ensures ReversedOnce(s)
  {
    forall t | true ensures s.reversals[t] <= 1 {
      assert t in s.reversals ==> t.id in s.transfers && t == Transfer(t.id, s.transfers[t.id]);
    }
  }

  /**
   * However often rollbacks of dead letters and of lost legs begin again, and however everything interleaves,
   * no transfer is reversed twice.
   */
  lemma LooseRunsReverseOnce(workers: nat, maxRetries: nat, actions: seq<Action>)
    requires maxRetries > 0
    ensures ReversedOnce(LooseRun(Start(workers, maxRetries), actions))
  {
    StartFitsMoney(workers, maxRetries);
    var at := LooseRunKeeps(Start(workers, maxRetries), map[], actions);
    FitsReversedOnce(LooseRun(Start(workers, maxRetries), actions), at);
  }

  // ---------------------------------------------------------------- the stricter protocol

  lemma StrictStepKeeps(s: State, at: map<string, Place>, a: Action) returns (at': map<string, Place>)
    requires MoneyFits(s, at)
    ensures MoneyFits(Next(s, a), at')
  {
    if a.BeginRollback? && !CanBegin(s, a.completed) {
      at' := at;
    } else {
      at' := LooseStepKeeps(s, at, a);
    }
  }

  lemma {:induction false} StrictRunKeeps(s: State, at: map<string, Place>, actions: seq<Action>)
    returns (at': map<string, Place>)
    requires MoneyFits(s, at)
    ensures MoneyFits(Run(s, actions), at')
  {
    if |actions| == 0 {
      at' := at;
    } else {
      at' := StrictRunKeeps(s, at, actions[..|actions| - 1]);
      at' := StrictStepKeeps(Run(s, actions[..|actions| - 1]), at', actions[|actions| - 1]);
    }
  }

  ghost predicate OnceForEver(s: State) {
    forall more :: ReversedOnce(Run(s, more))
  }

  lemma NoneInHandIsSafe(s: State, at: map<string, Place>, completed: seq<Transfer>)
    requires MoneyFits(s, at) && LegsOf(s, completed) && NoneInHand(s, completed)
    ensures OnceForEver(Begun(s, completed))
  {
    BeginKeepsMoney(s, at, completed);
    forall more | true ensures ReversedOnce(Run(Begun(s, completed), more)) {
      var at' := StrictRunKeeps(Begun(s, completed), TakenBy(at, completed, |s.sagas|), more);
      FitsReversedOnce(Run(Begun(s, completed), more), at');
    }
  }

  /** Dead letters and lost transfers are in nobody's hand. */
  lemma DeadAreFree(workers: nat, maxRetries: nat, actions: seq<Action>, id: string)
    requires maxRetries > 0
    requires var s := Run(Start(workers, maxRetries), actions); HasEvent(s.dead, id) || id in s.lost
    ensures !InHand(Run(Start(workers, maxRetries), actions), id)
  {
    var at := RunKeeps(workers, maxRetries, actions);
    var s := Run(Start(workers, maxRetries), actions);
    OnePlace(s, at, id);
    assert at[id] == InDeadLetter || at[id] == Lost;
  }
}
