/** What happens when one transfer is rolled back twice at a time, and exactly when that is harmless. */
module CompensationConflicts {
  import opened CompensationTypes
  import opened CompensationProtocol
  import opened CompensationSafety

  /** Each transfer is in one place and has been reversed at most once. */
  ghost predicate Safe(s: State) {
    forall id :: id in s.transfers ==>
      (exists p :: Responsible(s, id) == {p}) && s.reversals[Transfer(id, s.transfers[id])] <= 1
  }

  lemma InvariantIsSafe(s: State, at: map<string, Place>)
    requires Invariant(s, at)
    ensures Safe(s)
  {
    forall id | id in s.transfers
      ensures (exists p :: Responsible(s, id) == {p}) && s.reversals[Transfer(id, s.transfers[id])] <= 1
    {
      OnePlace(s, at, id);
    }
  }

  /** A transfer that is still somebody's, and not compensated, becomes the new saga's as well. */
  lemma SecondOwner(s: State, at: map<string, Place>, completed: seq<Transfer>, k: nat)
    requires Invariant(s, at) && k < |completed|
    requires completed[k].id in s.transfers && completed[k].id !in s.tombstones
    ensures var id := completed[k].id;
            && at[id] in Responsible(Begun(s, completed), id) && AtSaga(|s.sagas|) in Responsible(Begun(s, completed), id)
            && at[id] != AtSaga(|s.sagas|)
  {
    var id, s' := completed[k].id, Begun(s, completed);
    assert Reverse(completed)[|completed| - 1 - k].id == id;
    assert HasTransfer(s'.sagas[|s.sagas|].todo, id);
    OnePlace(s, at, id);
    assert at[id] in Responsible(s, id);
    assert forall i :: 0 <= i < |s.sagas| ==> s'.sagas[i] == s.sagas[i];
  }

  lemma NotSingle(places: set<Place>, p: Place, p': Place)
    requires p in places && p' in places && p != p'
    ensures forall q :: places != {q}
  {
    forall q | true ensures places != {q} {
      assert p in {q} && p' in {q} ==> p == p';
    }
  }

  lemma ConflictIsUnsafe(s: State, at: map<string, Place>, completed: seq<Transfer>)
    requires Invariant(s, at) && LegsOf(s, completed) && !NewOrCompensated(s, completed)
    ensures !Safe(Begun(s, completed))
  {
    var k :| 0 <= k < |completed| && completed[k].id in s.transfers && completed[k].id !in s.tombstones;
    var id, s' := completed[k].id, Begun(s, completed);
    SecondOwner(s, at, completed, k);
    assert id in s'.transfers;
    NotSingle(Responsible(s', id), at[id], AtSaga(|s.sagas|));
  }

  ghost predicate SafeForEver(s: State) {
    forall more :: Safe(Run(s, more))
  }

  lemma SafeAtOnce(s: State)
    requires SafeForEver(s)
    ensures Safe(s)
  {
    assert Run(s, []) == s;
  }

  lemma InvariantIsSafeForEver(s: State, at: map<string, Place>)
    requires Invariant(s, at)
    ensures SafeForEver(s)
  {
    forall more | true ensures Safe(Run(s, more)) {
      var at' := RunKeepsFrom(s, at, more);
      InvariantIsSafe(Run(s, more), at');
    }
  }

  /**
   * From any state a run can reach, beginning a rollback without looking keeps every continuation safe
   * exactly when each of its legs is new to the provider or has been compensated already.
   */
  lemma SafeExactlyWhenDistinct(workers: nat, maxRetries: nat, actions: seq<Action>, completed: seq<Transfer>)
    requires maxRetries > 0 && LegsOf(Run(Start(workers, maxRetries), actions), completed)
    ensures var s := Run(Start(workers, maxRetries), actions);
            SafeForEver(Begun(s, completed)) <==> NewOrCompensated(s, completed)
  {
    var s := Run(Start(workers, maxRetries), actions);
    var at := RunKeeps(workers, maxRetries, actions);
    if NewOrCompensated(s, completed) {
      BeginKeeps(s, at, completed);
      InvariantIsSafeForEver(Begun(s, completed), Assigned(at, completed, |s.sagas|));
    } else if SafeForEver(Begun(s, completed)) {
      SafeAtOnce(Begun(s, completed));
      ConflictIsUnsafe(s, at, completed);
    }
  }

  // ---------------------------------------------------------------- money reversed twice

  predicate AboutToCheck(s: State, i: nat, t: Transfer) {
    i < |s.sagas| && |s.sagas[i].todo| > 0 && s.sagas[i].todo[0] == t && s.sagas[i].phase == Checking
  }

  /** The order in which both sagas pass the check before either reverses. */
  function Overtaking(i: nat, j: nat): seq<Action> {
    [SagaStep(i, true), SagaStep(j, true), SagaStep(i, true), SagaStep(j, true)]
  }

  lemma RunFour(s: State, a: Action, b: Action, c: Action, d: Action)
    ensures Run(s, [a, b, c, d]) == Next(Next(Next(Next(s, a), b), c), d)
  {
    assert [a, b, c, d][..3] == [a, b, c] && [a, b, c][..2] == [a, b];
    RunTwo(s, a, b);
    assert Run(s, [a, b, c]) == Next(Run(s, [a, b]), c);
  }

  /**
   * The provider ignores the idempotency key, so any two sagas that stand before the check of one
   * uncompensated transfer can both pass it and reverse the transfer twice.
   */
  lemma SharedTransferReversedTwice(s: State, i: nat, j: nat, t: Transfer)
    requires i != j && AboutToCheck(s, i, t) && AboutToCheck(s, j, t)
    requires t.id in s.transfers && t.id !in s.tombstones
    ensures Run(s, Overtaking(i, j)).reversals[t] == s.reversals[t] + 2
  {
    var s2 := Next(Next(s, SagaStep(i, true)), SagaStep(j, true));
    assert s2 == Stay(Stay(s, i, Reversing), j, Reversing);
    assert s2.sagas[i] == SagaRun(s.sagas[i].todo, Reversing) && s2.sagas[j] == SagaRun(s.sagas[j].todo, Reversing);
    var s3 := Next(s2, SagaStep(i, true));
    assert s3 == Stay(s2, i, Marking).(reversals := s.reversals + multiset{t});
    assert s3.sagas[j] == s2.sagas[j];
    var s4 := Next(s3, SagaStep(j, true));
    assert s4.reversals == s.reversals + multiset{t} + multiset{t};
    RunFour(s, SagaStep(i, true), SagaStep(j, true), SagaStep(i, true), SagaStep(j, true));
  }

  /** It is enough to begin a second rollback that ends with a transfer another saga is about to check. */
  lemma ConflictReversesTwice(
    workers: nat, maxRetries: nat, actions: seq<Action>, i: nat, completed: seq<Transfer>)
    requires maxRetries > 0 && |completed| > 0
    requires var s, t := Run(Start(workers, maxRetries), actions), completed[|completed| - 1];
      LegsOf(s, completed) && AboutToCheck(s, i, t) && t.id !in s.tombstones
    ensures var s, t := Run(Start(workers, maxRetries), actions), completed[|completed| - 1];
            !CanBegin(s, completed) && Run(Begun(s, completed), Overtaking(i, |s.sagas|)).reversals[t] == 2
  {
    var s, t := Run(Start(workers, maxRetries), actions), completed[|completed| - 1];
    var at := RunKeeps(workers, maxRetries, actions);
    HeadOwned(s, at, i);
    assert s.transfers[t.id] == t.amount;
    assert s.reversals[Transfer(t.id, s.transfers[t.id])] == 0;
    var s' := Begun(s, completed);
    assert s'.sagas[i] == s.sagas[i] && Reverse(completed)[0] == t;
    SharedTransferReversedTwice(s', i, |s.sagas|, t);
  }

  /** The shortest such run, for any transfer. */
  lemma TwoRollbacksFromStart(workers: nat, maxRetries: nat, t: Transfer)
    requires maxRetries > 0 && t.amount > 0
    ensures var s := Run(Start(workers, maxRetries), [BeginRollback([t])]);
            !CanBegin(s, [t]) && Run(Begun(s, [t]), Overtaking(0, 1)).reversals[t] == 2
  {
    var begin := BeginRollback([t]);
    BeginOne(workers, maxRetries, t);
    assert [begin][..0] == [] && Run(Start(workers, maxRetries), [begin]) == Next(Start(workers, maxRetries), begin);
    ConflictReversesTwice(workers, maxRetries, [begin], 0, [t]);
  }
}
