/** Who has a transfer in hand, that is, may yet ask the provider to reverse it. */
module CompensationHands {
  // Every step keeps this to one saga, event or worker, whatever records and dead letters say.

  import opened CompensationTypes
  import opened CompensationProtocol
  import opened CompensationSafety

  /** The last attempt on this event has failed, so the worker will only make it a dead letter. */
  predicate GivingUp(r: WorkerRun) {
    r.Failing? && r.e.retryCount + 1 >= r.e.maxRetries
  }

  /** The workers as far as they may yet reverse something. */
  function Trying(workers: seq<WorkerRun>): (r: seq<WorkerRun>)
    ensures |r| == |workers|
  {
    seq(|workers|, w requires 0 <= w < |workers| => if GivingUp(workers[w]) then Idle else workers[w])
  }

  ghost predicate AtSomeSaga(s: State, id: string) {
    exists i :: 0 <= i < |s.sagas| && HasTransfer(s.sagas[i].todo, id)
  }

  ghost predicate AtSomeWorker(s: State, id: string) {
    exists w :: 0 <= w < |s.workers| && Holds(s.workers[w], id) && !GivingUp(s.workers[w])
  }

  /** A saga, the queue or a worker has the transfer before it, uncompensated. */
  ghost predicate InHand(s: State, id: string) {
    id !in s.tombstones && (AtSomeSaga(s, id) || HasEvent(s.pending, id) || AtSomeWorker(s, id))
  }

  /** Each leg is new, compensated, a dead letter or lost: nobody else may yet reverse it. */
  ghost predicate NoneInHand(s: State, completed: seq<Transfer>) {
    forall k :: 0 <= k < |completed| ==> completed[k].id in s.transfers ==> !InHand(s, completed[k].id)
  }

  // ---------------------------------------------------------------- invariant
  // `at` names who may yet reverse each transfer; Done, InDeadLetter and Lost stand for nobody.

  ghost predicate HandsFit(s: State, at: map<string, Place>) {
    && at.Keys == s.transfers.Keys
    && SagaOwn(s.sagas, at)
    && QueueOwn(s.pending, at, InQueue)
    && WorkerOwn(Trying(s.workers), at)
    && TombstonesMark(s.tombstones, at)
  }

  ghost predicate MoneyFits(s: State, at: map<string, Place>) {
    HandsFit(s, at) && Figures(s) && ReversalsFit(s.sagas, s.workers, s.transfers, s.reversals, at)
  }

  // ---------------------------------------------------------------- figures

  lemma SagaFigures(s: State, i: nat, ok: bool)
    requires Figures(s) && i < |s.sagas| && |s.sagas[i].todo| > 0
    ensures Figures(SagaNext(s, i, ok))
  {
    var t, s' := s.sagas[i].todo[0], SagaNext(s, i, ok);
    FiguresAdvance(s, i);
    FiguresStay(s, i, s'.sagas[i].phase);
    if s.sagas[i].phase == EnqueuePushing {
      FiguresPush(Advance(s, i), NewEvent(t, s.maxRetries));
    } else if s'.sagas == Advance(s, i).sagas {
      FiguresSame(Advance(s, i), s');
    } else {
      FiguresSame(Stay(s, i, s'.sagas[i].phase), s');
    }
  }

  lemma WorkerFigures(s: State, w: nat, ok: bool)
    requires Figures(s) && w < |s.workers|
    ensures Figures(WorkerNext(s, w, ok))
  {
    var s' := WorkerNext(s, w, ok);
    match s.workers[w]
    case Idle =>
      if |s.pending| > 0 {
        FiguresBecome(s, w, Popped(s.pending[0]));
        FiguresPop(Become(s, w, Popped(s.pending[0])));
      }
    case Failing(e) =>
      FiguresBecome(s, w, Idle);
      if e.retryCount + 1 >= e.maxRetries { FiguresEscalate(Become(s, w, Idle), AfterFailure(e)); }
      else { FiguresPush(Become(s, w, Idle), AfterFailure(e)); }
    case _ =>
      FiguresBecome(s, w, s'.workers[w]);
      FiguresSame(Become(s, w, s'.workers[w]), s');
  }

  // ---------------------------------------------------------------- saga steps

  ghost predicate AtWork(s: State, at: map<string, Place>, i: nat) {
    MoneyFits(s, at) && i < |s.sagas| && |s.sagas[i].todo| > 0
  }

  lemma HeadInHand(s: State, at: map<string, Place>, i: nat)
    requires AtWork(s, at, i)
    ensures var id := s.sagas[i].todo[0].id;
            && id in at && id in s.transfers && s.transfers[id] == s.sagas[i].todo[0].amount
            && (if id in s.tombstones then at[id] == Done && s.sagas[i].phase == Checking else at[id] == AtSaga(i))
  {
  }

  lemma SkipKeeps(s: State, at: map<string, Place>, i: nat)
    requires AtWork(s, at, i) && s.sagas[i].todo[0].id in s.tombstones
    ensures MoneyFits(SagaNext(s, i, true), at) && SagaNext(s, i, true) == SagaNext(s, i, false)
  {
    HeadInHand(s, at, i);
    SagaFigures(s, i, true);
    SagaOwnSkip(s.sagas, at, i);
    SettledSkip(s.sagas, s.workers, at, i);
    ReversalsKeep(s, at, SagaNext(s, i, true), at);
  }

  /** A step on the same transfer, other than a reversal, only changes the phase. */
  lemma StayShape(s: State, i: nat, ok: bool)
    requires i < |s.sagas| && |s.sagas[i].todo| > 0 && |SagaNext(s, i, ok).sagas[i].todo| == |s.sagas[i].todo|
    requires s.sagas[i].phase == Reversing ==> !ProviderReverses(s, s.sagas[i].todo[0].id, ok)
    ensures var s' := SagaNext(s, i, ok);
            && s'.sagas == Stay(s, i, s'.sagas[i].phase).sagas && s'.sagas[i].phase != Marking
            && s.sagas[i].phase != Marking
            && s' == s.(sagas := s'.sagas, records := s'.records)
  {
  }

  lemma StayKeeps(s: State, at: map<string, Place>, i: nat, ok: bool)
    requires AtWork(s, at, i) && |SagaNext(s, i, ok).sagas[i].todo| == |s.sagas[i].todo|
    requires s.sagas[i].todo[0].id !in s.tombstones && (s.sagas[i].phase == Reversing ==> !ok)
    ensures MoneyFits(SagaNext(s, i, ok), at)
  {
    var p := SagaNext(s, i, ok).sagas[i].phase;
    HeadInHand(s, at, i);
    SagaFigures(s, i, ok);
    StayShape(s, i, ok);
    SagaOwnStay(s.sagas, at, i, p);
    SettledStay(s.sagas, s.workers, at, i, p);
    ReversalsKeep(s, at, SagaNext(s, i, ok), at);
  }

  lemma SagaReverseKeeps(s: State, at: map<string, Place>, i: nat)
    requires AtWork(s, at, i) && s.sagas[i].phase == Reversing && ProviderReverses(s, s.sagas[i].todo[0].id, true)
    ensures MoneyFits(SagaNext(s, i, true), at)
  {
    HeadInHand(s, at, i);
    SagaFigures(s, i, true);
    SagaOwnStay(s.sagas, at, i, Marking);
    SagaSettles(s.sagas, s.workers, at, i);
    ReversalsAdd(s, at, SagaNext(s, i, true), s.sagas[i].todo[0]);
  }

  /** Where the saga's transfer goes when the saga lets go of it: marked, queued, or left to nobody. */
  function LeftAt(p: Phase): Place {
    if p == Marking then Done else if p == EnqueuePushing then InQueue else Lost
  }

  ghost predicate LetsGo(s: State, i: nat, s': State)
    requires i < |s.sagas| && |s.sagas[i].todo| > 0
  {
    var t, p := s.sagas[i].todo[0], s.sagas[i].phase;
    && s'.sagas == Advance(s, i).sagas && s'.workers == s.workers && s'.transfers == s.transfers
    && s'.pending == (if p == EnqueuePushing then s.pending + [NewEvent(t, s.maxRetries)] else s.pending)
    && s'.tombstones == (if p == Marking then s.tombstones + {t.id} else s.tombstones)
  }

  lemma LetGoHands(s: State, at: map<string, Place>, i: nat, s': State)
    requires AtWork(s, at, i) && LetsGo(s, i, s')
    requires s.sagas[i].todo[0].id in at && at[s.sagas[i].todo[0].id] == AtSaga(i)
    ensures HandsFit(s', at[s.sagas[i].todo[0].id := LeftAt(s.sagas[i].phase)])
  {
    var t, p := s.sagas[i].todo[0], LeftAt(s.sagas[i].phase);
    SagaOwnFinish(s.sagas, at, i, p);
    WorkerOwnFrame(Trying(s.workers), at, t.id, p);
    if p == InQueue {
      QueueOwnPush(s.pending, at, InQueue, NewEvent(t, s.maxRetries));
    } else {
      QueueOwnFrame(s.pending, at, InQueue, t.id, p);
    }
  }

  lemma LetGoShape(s: State, i: nat, ok: bool)
    requires i < |s.sagas| && |s.sagas[i].todo| > 0 && |SagaNext(s, i, ok).sagas[i].todo| < |s.sagas[i].todo|
    ensures LetsGo(s, i, SagaNext(s, i, ok)) && SagaNext(s, i, ok).reversals == s.reversals
  {
  }

  lemma LetGoKeeps(s: State, at: map<string, Place>, i: nat, ok: bool)
    requires AtWork(s, at, i) && s.sagas[i].todo[0].id !in s.tombstones
    requires |SagaNext(s, i, ok).sagas[i].todo| < |s.sagas[i].todo|
    ensures MoneyFits(SagaNext(s, i, ok), at[s.sagas[i].todo[0].id := LeftAt(s.sagas[i].phase)])
  {
    var p, s' := LeftAt(s.sagas[i].phase), SagaNext(s, i, ok);
    HeadInHand(s, at, i);
    SagaFigures(s, i, ok);
    LetGoShape(s, i, ok);
    LetGoHands(s, at, i, s');
    SettledFinish(s.sagas, s.workers, at, i, p);
    ReversalsKeep(s, at, s', at[s.sagas[i].todo[0].id := p]);
  }

  lemma SagaStepKeepsMoney(s: State, at: map<string, Place>, i: nat, ok: bool) returns (at': map<string, Place>)
    requires AtWork(s, at, i)
    ensures MoneyFits(SagaNext(s, i, ok), at')
  {
    at' := at;
    HeadInHand(s, at, i);
    var t, s' := s.sagas[i].todo[0], SagaNext(s, i, ok);
    if t.id in s.tombstones {
      SkipKeeps(s, at, i);
    } else if s.sagas[i].phase == Reversing && ok {
      SagaReverseKeeps(s, at, i);
    } else if |s'.sagas[i].todo| == |s.sagas[i].todo| {
      StayKeeps(s, at, i, ok);
    } else {
      at' := at[t.id := LeftAt(s.sagas[i].phase)];
      LetGoKeeps(s, at, i, ok);
    }
  }

  // ---------------------------------------------------------------- worker steps

  lemma HeldInHand(s: State, at: map<string, Place>, w: nat)
    requires MoneyFits(s, at) && w < |s.workers| && !s.workers[w].Idle? && !GivingUp(s.workers[w])
    ensures var e := s.workers[w].e;
            && e.transferId in at && at[e.transferId] == AtWorker(w) && e.transferId !in s.tombstones
            && e.transferId in s.transfers && s.transfers[e.transferId] == e.amountPaise
    ensures forall id :: id in at && at[id] == AtWorker(w) ==> id == s.workers[w].e.transferId
  {
    assert Trying(s.workers)[w] == s.workers[w];
  }

  lemma TryingUpdate(workers: seq<WorkerRun>, w: nat, r: WorkerRun)
    requires w < |workers|
    ensures Trying(workers[w := r]) == Trying(workers)[w := if GivingUp(r) then Idle else r]
  {
  }

  lemma GiveUpKeeps(s: State, at: map<string, Place>, w: nat, ok: bool)
    requires MoneyFits(s, at) && w < |s.workers| && GivingUp(s.workers[w])
    ensures MoneyFits(WorkerNext(s, w, ok), at)
  {
    WorkerFigures(s, w, ok);
    TryingUpdate(s.workers, w, Idle);
    assert Trying(s.workers)[w := Idle] == Trying(s.workers);
    SettledWorker(s.sagas, s.workers, at, w, Idle);
    ReversalsKeep(s, at, WorkerNext(s, w, ok), at);
  }

  lemma PopKeeps(s: State, at: map<string, Place>, w: nat, ok: bool)
    requires MoneyFits(s, at) && w < |s.workers| && s.workers[w].Idle? && |s.pending| > 0
    ensures MoneyFits(WorkerNext(s, w, ok), at[s.pending[0].transferId := AtWorker(w)])
  {
    var id, r := s.pending[0].transferId, Popped(s.pending[0]);
    WorkerFigures(s, w, ok);
    TryingUpdate(s.workers, w, r);
    SagaOwnFrame(s.sagas, at, id, AtWorker(w));
    QueueOwnPop(s.pending, at, InQueue, AtWorker(w));
    WorkerOwnTake(Trying(s.workers), at, w, r);
    SettledWorker(s.sagas, s.workers, at, w, r);
    SettledFrame(s.sagas, s.workers[w := r], at, id, AtWorker(w));
    ReversalsKeep(s, at, WorkerNext(s, w, ok), at[id := AtWorker(w)]);
  }

  /** The worker keeps its event and goes on to try, or to a failure that is not the last. */
  lemma TryKeeps(s: State, at: map<string, Place>, w: nat, ok: bool, r: WorkerRun)
    requires MoneyFits(s, at) && w < |s.workers| && (s.workers[w].Popped? || s.workers[w].Attempting?)
    requires WorkerNext(s, w, ok) == Become(s, w, r) && !r.Idle? && !r.Recording? && r.e == s.workers[w].e
    requires !GivingUp(r)
    ensures MoneyFits(WorkerNext(s, w, ok), at)
  {
    HeldInHand(s, at, w);
    WorkerFigures(s, w, ok);
    TryingUpdate(s.workers, w, r);
    WorkerOwnStay(Trying(s.workers), at, w, r);
    SettledWorker(s.sagas, s.workers, at, w, r);
    ReversalsKeep(s, at, WorkerNext(s, w, ok), at);
  }

  lemma WorkerReverseKeeps(s: State, at: map<string, Place>, w: nat)
    requires MoneyFits(s, at) && w < |s.workers| && s.workers[w].Attempting?
    ensures MoneyFits(WorkerNext(s, w, true), at)
  {
    var e := s.workers[w].e;
    HeldInHand(s, at, w);
    WorkerFigures(s, w, true);
    TryingUpdate(s.workers, w, Recording(e));
    WorkerOwnStay(Trying(s.workers), at, w, Recording(e));
    WorkerSettles(s.sagas, s.workers, at, w);
    ReversalsAdd(s, at, WorkerNext(s, w, true), Transfer(e.transferId, e.amountPaise));
  }

  lemma ReleaseQueue(q: seq<Event>, at: map<string, Place>, e: Event, p: Place)
    requires QueueOwn(q, at, InQueue) && e.transferId in at && at[e.transferId].AtWorker?
    ensures QueueOwn(if p == InQueue then q + [AfterFailure(e)] else q, at[e.transferId := p], InQueue)
  {
    if p == InQueue { QueueOwnPush(q, at, InQueue, AfterFailure(e)); }
    else { QueueOwnFrame(q, at, InQueue, e.transferId, p); }
  }

  /** The worker's own hold ends: at the tombstone, back in the queue, or with nobody. */
  lemma ReleaseHands(s: State, at: map<string, Place>, w: nat, s': State, p: Place)
    requires HandsFit(s, at) && w < |s.workers| && !s.workers[w].Idle? && !GivingUp(s.workers[w])
    requires s.workers[w].e.transferId in at && at[s.workers[w].e.transferId] == AtWorker(w)
    requires s'.sagas == s.sagas && s'.transfers == s.transfers && p in {Done, InQueue, Lost}
    requires Trying(s'.workers) == Trying(s.workers)[w := Idle]
    requires s'.tombstones == (if p == Done then s.tombstones + {s.workers[w].e.transferId} else s.tombstones)
    requires s'.pending == (if p == InQueue then s.pending + [AfterFailure(s.workers[w].e)] else s.pending)
    ensures HandsFit(s', at[s.workers[w].e.transferId := p])
  {
    var e := s.workers[w].e;
    var id := e.transferId;
    assert Trying(s.workers)[w] == s.workers[w];
    if p == Done { SagaOwnFrameDone(s.sagas, at, id); } else { SagaOwnFrame(s.sagas, at, id, p); }
    ReleaseQueue(s.pending, at, e, p);
    WorkerOwnDrop(Trying(s.workers), at, w, p);
  }

  lemma ReleaseSettled(
    sagas: seq<SagaRun>, workers: seq<WorkerRun>, at: map<string, Place>, w: nat, r: WorkerRun, id: string, p: Place)
    requires w < |workers| && id in at && at[id] == AtWorker(w) && !r.Recording?
    requires forall x :: x in at && at[x] == AtWorker(w) ==> x == id
    requires p in {Done, InQueue, Lost} && (workers[w].Recording? <==> p == Done)
    ensures SameSettled(sagas, workers, at, sagas, workers[w := r], at[id := p])
  {
  }

  lemma ReleaseKeeps(s: State, at: map<string, Place>, w: nat, ok: bool, r: WorkerRun, p: Place)
    requires MoneyFits(s, at) && w < |s.workers| && !s.workers[w].Idle? && !GivingUp(s.workers[w])
    requires WorkerNext(s, w, ok).workers == s.workers[w := r] && (r == Idle || GivingUp(r))
    requires WorkerNext(s, w, ok).reversals == s.reversals
    requires p == (if s.workers[w].Recording? then Done else if s.workers[w].Failing? then InQueue else Lost)
    ensures MoneyFits(WorkerNext(s, w, ok), at[s.workers[w].e.transferId := p])
  {
    var id, s' := s.workers[w].e.transferId, WorkerNext(s, w, ok);
    HeldInHand(s, at, w);
    WorkerFigures(s, w, ok);
    TryingUpdate(s.workers, w, r);
    ReleaseHands(s, at, w, s', p);
    ReleaseSettled(s.sagas, s.workers, at, w, r, id, p);
    ReversalsKeep(s, at, s', at[id := p]);
  }

  lemma WorkerStepKeepsMoney(s: State, at: map<string, Place>, w: nat, ok: bool) returns (at': map<string, Place>)
    requires MoneyFits(s, at) && w < |s.workers|
    ensures MoneyFits(WorkerNext(s, w, ok), at')
  {
    at' := at;
    if s.workers[w].Idle? {
      if |s.pending| > 0 {
        at' := at[s.pending[0].transferId := AtWorker(w)];
        PopKeeps(s, at, w, ok);
      }
    } else if GivingUp(s.workers[w]) {
      GiveUpKeeps(s, at, w, ok);
    } else {
      HeldInHand(s, at, w);
      var r := WorkerNext(s, w, ok).workers[w];
      if s.workers[w].Attempting? && ok {
        WorkerReverseKeeps(s, at, w);
      } else if r == Idle || GivingUp(r) {
        var p := if s.workers[w].Recording? then Done else if s.workers[w].Failing? then InQueue else Lost;
        at' := at[s.workers[w].e.transferId := p];
        ReleaseKeeps(s, at, w, ok, r, p);
      } else {
        TryKeeps(s, at, w, ok, r);
      }
    }
  }
}
