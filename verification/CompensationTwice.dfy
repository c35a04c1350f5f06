/** How a rollback of a transfer that somebody else has in hand leads to its second reversal. */
module CompensationTwice {
  import opened CompensationTypes
  import opened CompensationProtocol
  import opened CompensationSafety
  import opened CompensationHands
  import opened CompensationMoney

  ghost predicate Reaches(s: State, s': State) {
    exists actions :: s' == Run(s, actions)
  }

  lemma ReachesStep(s: State, a: Action)
    ensures Reaches(s, Next(s, a))
  {
    assert [a][..0] == [] && Run(s, [a]) == Next(s, a);
  }

  lemma ReachesOn(s: State, s': State, s'': State)
    requires Reaches(s, s') && Reaches(s', s'')
    ensures Reaches(s, s'')
  {
    var a :| s' == Run(s, a);
    var b :| s'' == Run(s', b);
    RunAppend(s, a, b);
  }

  /** Some steps that neither mark transfer t nor forget a reversal of it. */
  ghost predicate Follows(s: State, s': State, t: Transfer) {
    && Reaches(s, s') && Figures(s') && s'.transfers == s.transfers
    && |s'.sagas| == |s.sagas| && |s'.workers| == |s.workers|
    && s.reversals[t] <= s'.reversals[t]
    && (t.id in s'.tombstones ==> t.id in s.tombstones)
  }

  lemma FollowsOn(s: State, s': State, s'': State, t: Transfer)
    requires Follows(s, s', t) && Follows(s', s'', t)
    ensures Follows(s, s'', t)
  {
    ReachesOn(s, s', s'');
  }

  lemma FollowsSelf(s: State, t: Transfer)
    requires Figures(s)
    ensures Follows(s, s, t)
  {
    assert s == Run(s, []);
  }

  ghost predicate OnlySaga(s: State, s': State, i: nat) {
    && |s'.sagas| == |s.sagas| && (forall x :: 0 <= x < |s.sagas| && x != i ==> s'.sagas[x] == s.sagas[x])
    && s'.workers == s.workers && s.pending <= s'.pending
  }

  ghost predicate OnlyWorker(s: State, s': State, w: nat) {
    && s'.sagas == s.sagas
    && |s'.workers| == |s.workers| && (forall x :: 0 <= x < |s.workers| && x != w ==> s'.workers[x] == s.workers[x])
  }

  // ---------------------------------------------------------------- a saga works its list off

  /** Steps left on one transfer, at most. */
  function Rank(p: Phase): nat {
    match p
    case Checking => 6
    case Reversing => 5
    case EnqueueChecking => 4
    case EnqueueLookup => 3
    case EnqueueRecording => 2
    case EnqueuePushing => 1
    case Marking => 1
  }

  lemma HeadStep(s: State, i: nat, t: Transfer) returns (s': State)
    requires Figures(s) && i < |s.sagas| && |s.sagas[i].todo| > 0 && s.sagas[i].todo[0].id != t.id
    ensures Follows(s, s', t) && OnlySaga(s, s', i)
    ensures s'.sagas[i] == SagaRun(s.sagas[i].todo[1..], Checking) ||
            (s'.sagas[i].todo == s.sagas[i].todo && Rank(s'.sagas[i].phase) < Rank(s.sagas[i].phase))
  {
    s' := Next(s, SagaStep(i, true));
    ReachesStep(s, SagaStep(i, true));
    SagaFigures(s, i, true);
    HeadStepShape(s, i);
  }

  lemma HeadStepShape(s: State, i: nat)
    requires Figures(s) && i < |s.sagas| && |s.sagas[i].todo| > 0
    ensures var s', h := SagaNext(s, i, true), s.sagas[i].todo[0];
            && |s'.sagas| == |s.sagas| && s'.sagas == s.sagas[i := s'.sagas[i]]
            && s'.workers == s.workers && s.pending <= s'.pending && s'.transfers == s.transfers
            && s'.reversals >= s.reversals && s'.tombstones <= s.tombstones + {h.id}
    ensures var s' := SagaNext(s, i, true);
            s'.sagas[i] == SagaRun(s.sagas[i].todo[1..], Checking) ||
            (s'.sagas[i].todo == s.sagas[i].todo && Rank(s'.sagas[i].phase) < Rank(s.sagas[i].phase))
  {
  }

  lemma {:induction false} FinishHead(s: State, i: nat, t: Transfer) returns (s': State)
    requires Figures(s) && i < |s.sagas| && |s.sagas[i].todo| > 0 && s.sagas[i].todo[0].id != t.id
    ensures Follows(s, s', t) && OnlySaga(s, s', i)
    ensures s'.sagas[i] == SagaRun(s.sagas[i].todo[1..], Checking)
    decreases Rank(s.sagas[i].phase)
  {
    var s1 := HeadStep(s, i, t);
    s' := s1;
    if s1.sagas[i] != SagaRun(s.sagas[i].todo[1..], Checking) {
      s' := FinishHead(s1, i, t);
      FollowsOn(s, s1, s', t);
    }
  }

  /** The saga comes to its j-th transfer. */
  lemma {:induction false} SagaComesTo(s: State, i: nat, j: nat, t: Transfer) returns (s': State)
    requires Figures(s) && i < |s.sagas| && j < |s.sagas[i].todo| && s.sagas[i].todo[j] == t
    requires DistinctIds(s.sagas[i].todo) && (j == 0 ==> s.sagas[i].phase == Checking)
    ensures Follows(s, s', t) && OnlySaga(s, s', i)
    ensures s'.sagas[i] == SagaRun(s.sagas[i].todo[j..], Checking)
    decreases j
  {
    if j == 0 {
      s' := s;
      FollowsSelf(s, t);
    } else {
      var s1 := FinishHead(s, i, t);
      s' := SagaComesTo(s1, i, j - 1, t);
      FollowsOn(s, s1, s', t);
      assert s.sagas[i].todo[1..][j - 1..] == s.sagas[i].todo[j..];
    }
  }

  predicate SagaPoised(s: State, i: nat, t: Transfer) {
    i < |s.sagas| && |s.sagas[i].todo| > 0 && s.sagas[i].todo[0] == t && s.sagas[i].phase == Reversing
  }

  /** Past the check of an uncompensated transfer the saga is about to reverse it. */
  lemma SagaPasses(s: State, i: nat, t: Transfer) returns (s': State)
    requires Figures(s) && i < |s.sagas| && |s.sagas[i].todo| > 0
    requires s.sagas[i].todo[0] == t && s.sagas[i].phase == Checking && t.id !in s.tombstones
    ensures Follows(s, s', t) && OnlySaga(s, s', i) && SagaPoised(s', i, t)
  {
    s' := Next(s, SagaStep(i, true));
    ReachesStep(s, SagaStep(i, true));
    SagaFigures(s, i, true);
  }

  lemma SagaBecomesPoised(s: State, i: nat, j: nat, t: Transfer) returns (s': State)
    requires Figures(s) && i < |s.sagas| && j < |s.sagas[i].todo| && s.sagas[i].todo[j] == t
    requires DistinctIds(s.sagas[i].todo) && (j == 0 ==> s.sagas[i].phase == Checking) && t.id !in s.tombstones
    ensures Follows(s, s', t) && OnlySaga(s, s', i) && SagaPoised(s', i, t)
  {
    var s1 := SagaComesTo(s, i, j, t);
    s' := SagaPasses(s1, i, t);
    FollowsOn(s, s1, s', t);
  }

  predicate Enqueuing(p: Phase) {
    p.EnqueueChecking? || p.EnqueueLookup? || p.EnqueueRecording? || p.EnqueuePushing?
  }

  /** A saga that is past its refused reversal puts the transfer into the queue. */
  lemma {:induction false} SagaEnqueues(s: State, i: nat, t: Transfer) returns (s': State)
    requires Figures(s) && i < |s.sagas| && |s.sagas[i].todo| > 0 && s.sagas[i].todo[0] == t
    requires Enqueuing(s.sagas[i].phase) && t.id !in s.tombstones
    requires s.sagas[i].phase != EnqueuePushing ==> ReversalKey(t.id) !in s.records
    ensures Follows(s, s', t) && OnlySaga(s, s', i)
    ensures s'.pending == s.pending + [NewEvent(t, s.maxRetries)]
    decreases Rank(s.sagas[i].phase)
  {
    var s1 := Next(s, SagaStep(i, true));
    ReachesStep(s, SagaStep(i, true));
    SagaFigures(s, i, true);
    s' := s1;
    if s.sagas[i].phase != EnqueuePushing {
      s' := SagaEnqueues(s1, i, t);
      FollowsOn(s, s1, s', t);
    }
  }

  // ---------------------------------------------------------------- a worker works the queue off

  function WorkerRank(r: WorkerRun): nat {
    match r
    case Popped(_) => 3
    case Attempting(_) => 2
    case Recording(_) => 1
    case Failing(_) => 1
    case Idle => 0
  }

  lemma WorkerGoesOn(s: State, w: nat, t: Transfer) returns (s': State)
    requires Figures(s) && w < |s.workers| && !s.workers[w].Idle? && s.workers[w].e.transferId != t.id
    ensures Follows(s, s', t) && OnlyWorker(s, s', w) && s.pending <= s'.pending
    ensures WorkerRank(s'.workers[w]) < WorkerRank(s.workers[w])
    ensures s'.workers[w].Idle? || s'.workers[w].e == s.workers[w].e
  {
    s' := Next(s, WorkerStep(w, true));
    ReachesStep(s, WorkerStep(w, true));
    WorkerFigures(s, w, true);
  }

  lemma {:induction false} WorkerGetsIdle(s: State, w: nat, t: Transfer) returns (s': State)
    requires Figures(s) && w < |s.workers| && (s.workers[w].Idle? || s.workers[w].e.transferId != t.id)
    ensures Follows(s, s', t) && OnlyWorker(s, s', w) && s.pending <= s'.pending && s'.workers[w].Idle?
    decreases WorkerRank(s.workers[w])
  {
    if s.workers[w].Idle? {
      s' := s;
      FollowsSelf(s, t);
    } else {
      var s1 := WorkerGoesOn(s, w, t);
      s' := WorkerGetsIdle(s1, w, t);
      FollowsOn(s, s1, s', t);
    }
  }

  predicate WorkerPoised(s: State, w: nat, t: Transfer) {
    w < |s.workers| && s.workers[w].Attempting? && s.workers[w].e.transferId == t.id
  }

  lemma WorkerPopsNext(s: State, w: nat, t: Transfer) returns (s': State)
    requires Figures(s) && w < |s.workers| && s.workers[w].Idle? && |s.pending| > 0
    ensures Follows(s, s', t) && OnlyWorker(s, s', w)
    ensures s'.pending == s.pending[1..] && s'.workers[w] == Popped(s.pending[0])
  {
    s' := Next(s, WorkerStep(w, true));
    ReachesStep(s, WorkerStep(w, true));
    WorkerFigures(s, w, true);
  }

  lemma WorkerPasses(s: State, w: nat, t: Transfer) returns (s': State)
    requires Figures(s) && w < |s.workers| && s.workers[w].Popped? && s.workers[w].e.transferId == t.id
    requires t.id !in s.tombstones
    ensures Follows(s, s', t) && OnlyWorker(s, s', w) && WorkerPoised(s', w, t)
  {
    s' := Next(s, WorkerStep(w, true));
    ReachesStep(s, WorkerStep(w, true));
    WorkerFigures(s, w, true);
  }

  /** The worker comes to the p-th event. */
  lemma {:induction false} QueueComesTo(s: State, w: nat, p: nat, t: Transfer) returns (s': State)
    requires Figures(s) && w < |s.workers| && s.workers[w].Idle? && t.id !in s.tombstones
    requires p < |s.pending| && s.pending[p].transferId == t.id
    requires forall x :: 0 <= x < p ==> s.pending[x].transferId != t.id
    ensures Follows(s, s', t) && OnlyWorker(s, s', w) && WorkerPoised(s', w, t)
    decreases p
  {
    var s1 := WorkerPopsNext(s, w, t);
    if p == 0 {
      s' := WorkerPasses(s1, w, t);
    } else {
      var s2 := WorkerGetsIdle(s1, w, t);
      var s3 := QueueComesTo(s2, w, p - 1, t);
      FollowsOn(s1, s2, s3, t);
      s' := s3;
    }
    FollowsOn(s, s1, s', t);
  }

  /** The first worker finishes what it has, if that is another transfer, and comes to this one. */
  lemma QueueBecomesPoised(s: State, p: nat, t: Transfer) returns (s': State)
    requires Figures(s) && |s.workers| > 0 && t.id !in s.tombstones
    requires s.workers[0].Idle? || s.workers[0].e.transferId != t.id
    requires p < |s.pending| && s.pending[p].transferId == t.id
    requires forall x :: 0 <= x < p ==> s.pending[x].transferId != t.id
    ensures Follows(s, s', t) && OnlyWorker(s, s', 0) && WorkerPoised(s', 0, t)
  {
    var s1 := WorkerGetsIdle(s, 0, t);
    s' := QueueComesTo(s1, 0, p, t);
    FollowsOn(s, s1, s', t);
  }

  // ---------------------------------------------------------------- whoever has the transfer in hand

  /** The action is about to reverse the transfer. */
  predicate Poised(s: State, a: Action, t: Transfer) {
    match a
    case BeginRollback(_) => false
    case SagaStep(i, ok) => ok && SagaPoised(s, i, t)
    case WorkerStep(w, ok) => ok && WorkerPoised(s, w, t)
  }

  lemma PoisedReverses(s: State, a: Action, t: Transfer, n: nat)
    requires Figures(s) && Poised(s, a, t) && t.id in s.transfers && s.transfers[t.id] == t.amount
    ensures var s' := Next(s, a);
            && Reaches(s, s') && s'.transfers == s.transfers && s'.reversals[t] == s.reversals[t] + 1
            && (SagaPoised(s, n, t) && a != SagaStep(n, true) ==> SagaPoised(s', n, t))
  {
    ReachesStep(s, a);
  }

  /** A second rollback of completed has begun although the first owner still has t, one of its legs, in hand. */
  ghost predicate Conflict(s: State, at: map<string, Place>, completed: seq<Transfer>, t: Transfer) {
    && Invariant(s, at) && LegsOf(s, completed) && |s.workers| > 0
    && t in completed && t.id in s.transfers && InHand(s, t.id)
  }

  lemma ListedAt(s: State, at: map<string, Place>, id: string)
    requires Invariant(s, at)
    ensures AtSomeSaga(s, id) ==> id in at && (at[id].AtSaga? || at[id] == Done)
  {
    if AtSomeSaga(s, id) {
      var i :| 0 <= i < |s.sagas| && HasTransfer(s.sagas[i].todo, id);
    }
  }

  lemma ConflictFigures(s: State, at: map<string, Place>, completed: seq<Transfer>, t: Transfer)
    requires Conflict(s, at, completed, t)
    ensures var b := Begun(s, completed);
            && Figures(b) && s.transfers[t.id] == t.amount && t.id in b.transfers && b.transfers[t.id] == t.amount
            && t.id in at && at[t.id] != Done && at[t.id] != Lost && at[t.id] != InDeadLetter
  {
    BeginTransfers(s, completed);
    FiguresAppend(s, Reverse(completed), s.transfers + Created(completed));
    ListedAt(s, at, t.id);
  }

  /** The first owner is about to reverse the transfer, or has done so already; the new saga has not moved. */
  ghost predicate OwnerReady(s: State, s': State, a: Action, n: nat, t: Transfer) {
    && Follows(s, s', t) && n < |s.sagas| && s'.sagas[n] == s.sagas[n]
    && (s'.reversals[t] >= 1 || (Poised(s', a, t) && a != SagaStep(n, true)))
  }

  lemma QueuedOwner(s: State, at: map<string, Place>, completed: seq<Transfer>, t: Transfer)
    returns (s': State, a: Action)
    requires Conflict(s, at, completed, t) && at[t.id] == InQueue
    ensures OwnerReady(Begun(s, completed), s', a, |s.sagas|, t)
  {
    ConflictFigures(s, at, completed, t);
    var b := Begun(s, completed);
    var p :| 0 <= p < |b.pending| && b.pending[p].transferId == t.id;
    s' := QueueBecomesPoised(b, p, t);
    a := WorkerStep(0, true);
  }

  lemma HoldingOwner(s: State, at: map<string, Place>, completed: seq<Transfer>, t: Transfer)
    returns (s': State, a: Action)
    requires Conflict(s, at, completed, t) && at[t.id].AtWorker?
    ensures OwnerReady(Begun(s, completed), s', a, |s.sagas|, t)
  {
    ConflictFigures(s, at, completed, t);
    var b, w := Begun(s, completed), at[t.id].worker;
    HolderTries(s, at, t.id);
    a := WorkerStep(w, true);
    if s.workers[w].Popped? {
      s' := WorkerPasses(b, w, t);
    } else if s.workers[w].Failing? {
      var s1 := WorkerRequeues(b, w, t);
      assert s1.pending[|b.pending|].transferId == t.id;
      s' := QueueBecomesPoised(s1, |b.pending|, t);
      FollowsOn(b, s1, s', t);
      a := WorkerStep(0, true);
    } else {
      s' := b;
      FollowsSelf(b, t);
      assert s.workers[w].Recording? ==> Settled(s.sagas, s.workers, t.id, at[t.id]);
    }
  }

  lemma HolderTries(s: State, at: map<string, Place>, id: string)
    requires Invariant(s, at) && InHand(s, id) && id in at && at[id].AtWorker?
    ensures var w := at[id].worker; w < |s.workers| && Holds(s.workers[w], id) && !GivingUp(s.workers[w])
    ensures forall x :: 0 <= x < |s.workers| && x != at[id].worker ==> !Holds(s.workers[x], id)
    ensures !HasEvent(s.pending, id)
  {
    ListedAt(s, at, id);
  }

  /** An attempt that failed, but not for the last time, goes back to the queue. */
  lemma WorkerRequeues(s: State, w: nat, t: Transfer) returns (s': State)
    requires Figures(s) && w < |s.workers| && s.workers[w].Failing? && !GivingUp(s.workers[w])
    ensures Follows(s, s', t) && OnlyWorker(s, s', w) && s'.workers[w].Idle?
    ensures s'.pending == s.pending + [AfterFailure(s.workers[w].e)]
  {
    s' := Next(s, WorkerStep(w, true));
    ReachesStep(s, WorkerStep(w, true));
    WorkerFigures(s, w, true);
  }

  /** Where in its saga's list a transfer is, and in which phase. */
  lemma OwnerAt(s: State, at: map<string, Place>, t: Transfer) returns (i: nat, j: nat)
    requires Invariant(s, at) && t.id in s.transfers && s.transfers[t.id] == t.amount
    requires t.id in at && at[t.id].AtSaga?
    ensures i < |s.sagas| && j < |s.sagas[i].todo| && s.sagas[i].todo[j] == t && DistinctIds(s.sagas[i].todo)
    ensures forall p :: 0 <= p < |s.pending| ==> s.pending[p].transferId != t.id
    ensures forall w :: 0 <= w < |s.workers| ==> s.workers[w].Idle? || s.workers[w].e.transferId != t.id
    ensures t.id !in s.tombstones
    ensures j == 0 && s.sagas[i].phase == Marking ==> s.reversals[t] == 1
    ensures j == 0 && s.sagas[i].phase != EnqueuePushing ==> ReversalKey(t.id) !in s.records
  {
    i := at[t.id].saga;
    j :| 0 <= j < |s.sagas[i].todo| && s.sagas[i].todo[j].id == t.id;
    assert j == 0 && s.sagas[i].phase == Marking ==> Settled(s.sagas, s.workers, t.id, at[t.id]);
  }

  lemma ListedOwner(s: State, at: map<string, Place>, completed: seq<Transfer>, t: Transfer)
    returns (s': State, a: Action)
    requires Conflict(s, at, completed, t) && at[t.id].AtSaga?
    ensures OwnerReady(Begun(s, completed), s', a, |s.sagas|, t)
  {
    ConflictFigures(s, at, completed, t);
    var b := Begun(s, completed);
    var i, j := OwnerAt(s, at, t);
    assert b.sagas[i] == s.sagas[i];
    a := SagaStep(i, true);
    if j > 0 || s.sagas[i].phase == Checking {
      s' := SagaBecomesPoised(b, i, j, t);
    } else if Enqueuing(s.sagas[i].phase) {
      var s1 := SagaEnqueues(b, i, t);
      s' := QueueBecomesPoised(s1, |b.pending|, t);
      FollowsOn(b, s1, s', t);
      a := WorkerStep(0, true);
    } else {
      s' := b;
      FollowsSelf(b, t);
    }
  }

  lemma OwnerBecomesReady(s: State, at: map<string, Place>, completed: seq<Transfer>, t: Transfer)
    returns (s': State, a: Action)
    requires Conflict(s, at, completed, t)
    ensures OwnerReady(Begun(s, completed), s', a, |s.sagas|, t)
  {
    ConflictFigures(s, at, completed, t);
    if at[t.id].AtSaga? {
      s', a := ListedOwner(s, at, completed, t);
    } else if at[t.id] == InQueue {
      s', a := QueuedOwner(s, at, completed, t);
    } else {
      s', a := HoldingOwner(s, at, completed, t);
    }
  }

  // ---------------------------------------------------------------- the second reversal

  /** Both are about to reverse, or one has and the other is about to. */
  lemma BothReverse(s: State, a: Action, n: nat, t: Transfer) returns (s': State)
    requires Figures(s) && t.id in s.transfers && s.transfers[t.id] == t.amount && SagaPoised(s, n, t)
    requires s.reversals[t] >= 1 || (Poised(s, a, t) && a != SagaStep(n, true))
    ensures Reaches(s, s') && s'.reversals[t] >= 2
  {
    var s1 := s;
    if s.reversals[t] == 0 {
      PoisedReverses(s, a, t, n);
      s1 := Next(s, a);
    } else {
      assert s == Run(s, []);
    }
    s' := Next(s1, SagaStep(n, true));
    ReachesStep(s1, SagaStep(n, true));
    ReachesOn(s, s1, s');
  }

  /** A leg that somebody has in hand can be reversed twice once another rollback of it begins. */
  lemma InHandIsReversedTwice(s: State, at: map<string, Place>, completed: seq<Transfer>, k: nat)
    returns (s': State)
    requires k < |completed| && Conflict(s, at, completed, completed[k])
    ensures Reaches(Begun(s, completed), s') && s'.reversals[completed[k]] >= 2
  {
    var t, b, n := completed[k], Begun(s, completed), |s.sagas|;
    ConflictFigures(s, at, completed, t);
    var s1, a := OwnerBecomesReady(s, at, completed, t);
    ReverseKeeps(completed);
    assert b.sagas[n] == SagaRun(Reverse(completed), Checking) && Reverse(completed)[|completed| - 1 - k] == t;
    var s2 := SagaBecomesPoised(s1, n, |completed| - 1 - k, t);
    FollowsOn(b, s1, s2, t);
    s' := BothReverse(s2, a, n, t);
    ReachesOn(b, s2, s');
  }

  lemma StepWorkers(s: State, a: Action)
    ensures |Next(s, a).workers| == |s.workers|
  {
  }

  lemma {:induction false} WorkersStay(s: State, actions: seq<Action>)
    ensures |Run(s, actions).workers| == |s.workers|
  {
    if |actions| > 0 {
      WorkersStay(s, actions[..|actions| - 1]);
      StepWorkers(Run(s, actions[..|actions| - 1]), actions[|actions| - 1]);
    }
  }

  /**
   * From any state a run can reach, beginning a rollback without looking reverses no transfer twice, whatever
   * happens next, exactly when none of its uncompensated legs is in the hand of a saga, the queue, or a worker
   * that has an attempt left. Dead letters and lost transfers are in nobody's hand.
   */
  lemma ReversedOnceExactly(workers: nat, maxRetries: nat, actions: seq<Action>, completed: seq<Transfer>)
    requires maxRetries > 0 && workers > 0
    requires LegsOf(Run(Start(workers, maxRetries), actions), completed)
    ensures var s := Run(Start(workers, maxRetries), actions);
            OnceForEver(Begun(s, completed)) <==> NoneInHand(s, completed)
  {
    var s := Run(Start(workers, maxRetries), actions);
    if NoneInHand(s, completed) {
      StartFitsMoney(workers, maxRetries);
      var at := StrictRunKeeps(Start(workers, maxRetries), map[], actions);
      NoneInHandIsSafe(s, at, completed);
    } else {
      var k :| 0 <= k < |completed| && completed[k].id in s.transfers && InHand(s, completed[k].id);
      var at := RunKeeps(workers, maxRetries, actions);
      WorkersStay(Start(workers, maxRetries), actions);
      var s' := InHandIsReversedTwice(s, at, completed, k);
      var more :| s' == Run(Begun(s, completed), more);
      assert !ReversedOnce(Run(Begun(s, completed), more));
    }
  }
}
