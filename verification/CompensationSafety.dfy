/** Every run of the rollback protocol keeps each transfer in exactly one place and reverses it at most once. */
module CompensationSafety {
  import opened Paise
  import opened CompensationTypes
  import opened CompensationProtocol

  ghost predicate SagaReady(s: State, at: map<string, Place>, i: nat) {
    Invariant(s, at) && i < |s.sagas| && |s.sagas[i].todo| > 0
  }

  /** Past its first check, a saga owns the transfer it is working on. */
  lemma HeadOwned(s: State, at: map<string, Place>, i: nat)
    requires SagaReady(s, at, i)
    ensures s.sagas[i].todo[0].id in at
    ensures s.sagas[i].phase != Checking ==> at[s.sagas[i].todo[0].id] == AtSaga(i)
    ensures s.sagas[i].todo[0].id in s.tombstones <==> at[s.sagas[i].todo[0].id] == Done
  {
  }

  // ---------------------------------------------------------------- figures

  lemma FiguresStay(s: State, i: nat, p: Phase)
    requires Figures(s) && i < |s.sagas|
    ensures Figures(Stay(s, i, p))
  {
  }

  lemma FiguresAdvance(s: State, i: nat)
    requires Figures(s) && i < |s.sagas| && |s.sagas[i].todo| > 0
    ensures Figures(Advance(s, i))
  {
    TailKeeps(s.sagas[i].todo);
  }

  lemma FiguresPush(s: State, e: Event)
    requires Figures(s) && EventFits(s, e) && e.retryCount < s.maxRetries
    ensures Figures(s.(pending := s.pending + [e]))
  {
  }

  lemma FiguresEscalate(s: State, e: Event)
    requires Figures(s) && EventFits(s, e) && e.retryCount == s.maxRetries
    ensures Figures(s.(dead := s.dead + [e]))
  {
  }

  lemma FiguresBecome(s: State, w: nat, r: WorkerRun)
    requires Figures(s) && w < |s.workers|
    requires !r.Idle? ==> EventFits(s, r.e) && r.e.retryCount < s.maxRetries
    ensures Figures(Become(s, w, r))
  {
  }

  lemma FiguresPop(s: State)
    requires Figures(s) && |s.pending| > 0
    ensures Figures(s.(pending := s.pending[1..]))
  {
  }

  lemma FiguresSame(s: State, s': State)
    requires Figures(s) && s'.maxRetries == s.maxRetries && s'.transfers == s.transfers
    requires s'.sagas == s.sagas && s'.workers == s.workers && s'.pending == s.pending && s'.dead == s.dead
    ensures Figures(s')
  {
  }

  // ---------------------------------------------------------------- saga steps

  lemma SagaSkips(s: State, at: map<string, Place>, i: nat)
    requires SagaReady(s, at, i) && s.sagas[i].todo[0].id in s.tombstones
    ensures Invariant(Advance(s, i), at)
  {
    HeadOwned(s, at, i);
    SagaOwnSkip(s.sagas, at, i);
    FiguresAdvance(s, i);
    RecordsSkip(s.sagas, s.records, at, i);
    SettledSkip(s.sagas, s.workers, at, i);
    ReversalsKeep(s, at, Advance(s, i), at);
  }

  lemma RecordsSkip(sagas: seq<SagaRun>, records: set<string>, at: map<string, Place>, i: nat)
    requires RecordsFit(sagas, records, at) && i < |sagas| && |sagas[i].todo| > 0 && sagas[i].phase == Checking
    ensures RecordsFit(sagas[i := SagaRun(sagas[i].todo[1..], Checking)], records, at)
  {
  }

  lemma SagaStays(s: State, at: map<string, Place>, i: nat, p: Phase)
    requires SagaReady(s, at, i) && s.sagas[i].todo[0].id !in s.tombstones
    requires s.sagas[i].phase != Marking && s.sagas[i].phase != EnqueuePushing
    requires p != Marking && p != EnqueuePushing
    ensures Invariant(Stay(s, i, p), at)
  {
    HeadOwned(s, at, i);
    SagaOwnStay(s.sagas, at, i, p);
    FiguresStay(s, i, p);
    RecordsStay(s.sagas, s.records, at, i, p);
    SettledStay(s.sagas, s.workers, at, i, p);
    ReversalsKeep(s, at, Stay(s, i, p), at);
  }

  lemma SagaSettles(sagas: seq<SagaRun>, workers: seq<WorkerRun>, at: map<string, Place>, i: nat)
    requires i < |sagas| && |sagas[i].todo| > 0 && sagas[i].phase == Reversing
    requires sagas[i].todo[0].id in at && at[sagas[i].todo[0].id] == AtSaga(i)
    ensures var after := sagas[i := sagas[i].(phase := Marking)];
            var id := sagas[i].todo[0].id;
            && !Settled(sagas, workers, id, at[id]) && Settled(after, workers, id, at[id])
            && forall x :: x in at && x != id ==>
                 (Settled(after, workers, x, at[x]) <==> Settled(sagas, workers, x, at[x]))
  {
  }

  lemma SagaReverses(s: State, at: map<string, Place>, i: nat)
    requires SagaReady(s, at, i) && s.sagas[i].phase == Reversing
    ensures Invariant(Stay(s, i, Marking).(reversals := s.reversals + multiset{s.sagas[i].todo[0]}), at)
  {
    var t := s.sagas[i].todo[0];
    HeadOwned(s, at, i);
    SagaOwnStay(s.sagas, at, i, Marking);
    FiguresStay(s, i, Marking);
    FiguresSame(Stay(s, i, Marking), Stay(s, i, Marking).(reversals := s.reversals + multiset{t}));
    RecordsStay(s.sagas, s.records, at, i, Marking);
    SagaSettles(s.sagas, s.workers, at, i);
    ReversalsAdd(s, at, Stay(s, i, Marking).(reversals := s.reversals + multiset{t}), t);
  }

  /** Handing a transfer over from its saga. */
  lemma SagaMarksOwn(s: State, at: map<string, Place>, i: nat)
    requires Ownership(s, at) && i < |s.sagas| && |s.sagas[i].todo| > 0
    requires s.sagas[i].todo[0].id in at && at[s.sagas[i].todo[0].id] == AtSaga(i)
    ensures var id := s.sagas[i].todo[0].id;
            Ownership(Advance(s, i).(tombstones := s.tombstones + {id}), at[id := Done])
  {
    var id := s.sagas[i].todo[0].id;
    SagaOwnFinish(s.sagas, at, i, Done);
    QueueOwnFrame(s.pending, at, InQueue, id, Done);
    QueueOwnFrame(s.dead, at, InDeadLetter, id, Done);
    WorkerOwnFrame(s.workers, at, id, Done);
  }

  lemma SagaPushesOwn(s: State, at: map<string, Place>, i: nat, e: Event)
    requires Ownership(s, at) && i < |s.sagas| && |s.sagas[i].todo| > 0 && e.transferId == s.sagas[i].todo[0].id
    requires e.transferId in at && at[e.transferId] == AtSaga(i)
    ensures Ownership(Advance(s, i).(pending := s.pending + [e]), at[e.transferId := InQueue])
  {
    SagaOwnFinish(s.sagas, at, i, InQueue);
    QueueOwnPush(s.pending, at, InQueue, e);
    QueueOwnFrame(s.dead, at, InDeadLetter, e.transferId, InQueue);
    WorkerOwnFrame(s.workers, at, e.transferId, InQueue);
  }

  lemma SagaLosesOwn(s: State, at: map<string, Place>, i: nat)
    requires Ownership(s, at) && i < |s.sagas| && |s.sagas[i].todo| > 0
    requires var t := s.sagas[i].todo[0];
      t.id in at && at[t.id] == AtSaga(i) && t.id in s.transfers && s.transfers[t.id] > MAX_PAISE
    ensures var id := s.sagas[i].todo[0].id;
            Ownership(Advance(s, i).(lost := s.lost + {id}), at[id := Lost])
  {
    var id := s.sagas[i].todo[0].id;
    SagaOwnFinish(s.sagas, at, i, Lost);
    QueueOwnFrame(s.pending, at, InQueue, id, Lost);
    QueueOwnFrame(s.dead, at, InDeadLetter, id, Lost);
    WorkerOwnFrame(s.workers, at, id, Lost);
  }

  /** The queue refuses an amount it cannot record, and the saga goes on to its next transfer. */
  lemma SagaLoses(s: State, at: map<string, Place>, i: nat)
    requires SagaReady(s, at, i) && s.sagas[i].phase == Reversing && s.sagas[i].todo[0].amount > MAX_PAISE
    ensures var id := s.sagas[i].todo[0].id;
            Invariant(Advance(s, i).(lost := s.lost + {id}), at[id := Lost])
  {
    var id := s.sagas[i].todo[0].id;
    HeadOwned(s, at, i);
    SagaLosesOwn(s, at, i);
    FiguresAdvance(s, i);
    FiguresSame(Advance(s, i), Advance(s, i).(lost := s.lost + {id}));
    RecordsFinish(s.sagas, s.records, at, i, Lost);
    SettledFinish(s.sagas, s.workers, at, i, Lost);
    ReversalsKeep(s, at, Advance(s, i), at[id := Lost]);
  }

  lemma SagaMarks(s: State, at: map<string, Place>, i: nat)
    requires SagaReady(s, at, i) && s.sagas[i].phase == Marking
    ensures var id := s.sagas[i].todo[0].id;
            Invariant(Advance(s, i).(tombstones := s.tombstones + {id}), at[id := Done])
  {
    var id := s.sagas[i].todo[0].id;
    HeadOwned(s, at, i);
    SagaMarksOwn(s, at, i);
    FiguresAdvance(s, i);
    FiguresSame(Advance(s, i), Advance(s, i).(tombstones := s.tombstones + {id}));
    RecordsFinish(s.sagas, s.records, at, i, Done);
    SettledFinish(s.sagas, s.workers, at, i, Done);
    ReversalsKeep(s, at, Advance(s, i), at[id := Done]);
  }

  lemma SagaRecords(s: State, at: map<string, Place>, i: nat)
    requires SagaReady(s, at, i) && s.sagas[i].phase == EnqueueRecording
    ensures Invariant(Stay(s, i, EnqueuePushing)
                      .(records := s.records + {ReversalKey(s.sagas[i].todo[0].id)}), at)
  {
    HeadOwned(s, at, i);
    SagaOwnStay(s.sagas, at, i, EnqueuePushing);
    FiguresStay(s, i, EnqueuePushing);
    FiguresSame(Stay(s, i, EnqueuePushing), Stay(s, i, EnqueuePushing)
                .(records := s.records + {ReversalKey(s.sagas[i].todo[0].id)}));
    RecordsAdd(s.sagas, s.records, at, i);
    SettledStay(s.sagas, s.workers, at, i, EnqueuePushing);
    ReversalsKeep(s, at, Stay(s, i, EnqueuePushing), at);
  }

  lemma SagaPushes(s: State, at: map<string, Place>, i: nat)
    requires SagaReady(s, at, i) && s.sagas[i].phase == EnqueuePushing
    ensures var t := s.sagas[i].todo[0];
            Invariant(Advance(s, i).(pending := s.pending + [NewEvent(t, s.maxRetries)]), at[t.id := InQueue])
  {
    var t := s.sagas[i].todo[0];
    var e := NewEvent(t, s.maxRetries);
    HeadOwned(s, at, i);
    SagaPushesOwn(s, at, i, e);
    FiguresAdvance(s, i);
    FiguresPush(Advance(s, i), e);
    RecordsFinish(s.sagas, s.records, at, i, InQueue);
    SettledFinish(s.sagas, s.workers, at, i, InQueue);
    ReversalsKeep(s, at, Advance(s, i), at[t.id := InQueue]);
  }

  /** A saga that owns its transfer finds no idempotency record for it. */
  lemma NoRecordYet(s: State, at: map<string, Place>, i: nat)
    requires SagaReady(s, at, i) && s.sagas[i].phase == EnqueueLookup
    ensures ReversalKey(s.sagas[i].todo[0].id) !in s.records
  {
    HeadOwned(s, at, i);
  }

  lemma SagaStepKeeps(s: State, at: map<string, Place>, i: nat, ok: bool) returns (at': map<string, Place>)
    requires SagaReady(s, at, i)
    ensures Invariant(SagaNext(s, i, ok), at')
  {
    at' := at;
    var t := s.sagas[i].todo[0];
    HeadOwned(s, at, i);
    match s.sagas[i].phase
    case Checking => if t.id in s.tombstones { SagaSkips(s, at, i); } else { SagaStays(s, at, i, Reversing); }
    case Reversing =>
      if ProviderReverses(s, t.id, ok) { SagaReverses(s, at, i); }
      else if t.amount > MAX_PAISE { SagaLoses(s, at, i); at' := at[t.id := Lost]; }
      else { SagaStays(s, at, i, EnqueueChecking); }
    case Marking => SagaMarks(s, at, i); at' := at[t.id := Done];
    case EnqueueChecking => SagaStays(s, at, i, EnqueueLookup);
    case EnqueueLookup => NoRecordYet(s, at, i); SagaStays(s, at, i, EnqueueRecording);
    case EnqueueRecording => SagaRecords(s, at, i);
    case EnqueuePushing => SagaPushes(s, at, i); at' := at[t.id := InQueue];
  }

  // ---------------------------------------------------------------- worker steps

  /** Handing a transfer over from its worker. */
  lemma WorkerMarksOwn(s: State, at: map<string, Place>, w: nat)
    requires Ownership(s, at) && w < |s.workers| && !s.workers[w].Idle?
    ensures var id := s.workers[w].e.transferId;
            Ownership(Become(s, w, Idle).(tombstones := s.tombstones + {id}), at[id := Done])
  {
    var id := s.workers[w].e.transferId;
    SagaOwnFrameDone(s.sagas, at, id);
    QueueOwnFrame(s.pending, at, InQueue, id, Done);
    QueueOwnFrame(s.dead, at, InDeadLetter, id, Done);
    WorkerOwnDrop(s.workers, at, w, Done);
  }

  lemma WorkerEscalatesOwn(s: State, at: map<string, Place>, w: nat, f: Event)
    requires Ownership(s, at) && w < |s.workers| && !s.workers[w].Idle? && f.transferId == s.workers[w].e.transferId
    ensures Ownership(Become(s, w, Idle).(dead := s.dead + [f]), at[f.transferId := InDeadLetter])
  {
    SagaOwnFrame(s.sagas, at, f.transferId, InDeadLetter);
    QueueOwnPush(s.dead, at, InDeadLetter, f);
    QueueOwnFrame(s.pending, at, InQueue, f.transferId, InDeadLetter);
    WorkerOwnDrop(s.workers, at, w, InDeadLetter);
  }

  lemma WorkerGivesBackOwn(s: State, at: map<string, Place>, w: nat, f: Event)
    requires Ownership(s, at) && w < |s.workers| && !s.workers[w].Idle? && f.transferId == s.workers[w].e.transferId
    ensures Ownership(Become(s, w, Idle).(pending := s.pending + [f]), at[f.transferId := InQueue])
  {
    SagaOwnFrame(s.sagas, at, f.transferId, InQueue);
    QueueOwnPush(s.pending, at, InQueue, f);
    QueueOwnFrame(s.dead, at, InDeadLetter, f.transferId, InQueue);
    WorkerOwnDrop(s.workers, at, w, InQueue);
  }

  lemma WorkerPopsOwn(s: State, at: map<string, Place>, w: nat)
    requires Ownership(s, at) && w < |s.workers| && s.workers[w].Idle? && |s.pending| > 0
    ensures Ownership(Become(s, w, Popped(s.pending[0])).(pending := s.pending[1..]),
                      at[s.pending[0].transferId := AtWorker(w)])
  {
    var id := s.pending[0].transferId;
    SagaOwnFrame(s.sagas, at, id, AtWorker(w));
    QueueOwnPop(s.pending, at, InQueue, AtWorker(w));
    QueueOwnFrame(s.dead, at, InDeadLetter, id, AtWorker(w));
    WorkerOwnTake(s.workers, at, w, Popped(s.pending[0]));
  }

  lemma WorkerPops(s: State, at: map<string, Place>, w: nat)
    requires Invariant(s, at) && w < |s.workers| && s.workers[w].Idle? && |s.pending| > 0
    ensures Invariant(Become(s, w, Popped(s.pending[0])).(pending := s.pending[1..]),
                      at[s.pending[0].transferId := AtWorker(w)])
  {
    var e := s.pending[0];
    var id, r := e.transferId, Popped(e);
    WorkerPopsOwn(s, at, w);
    FiguresBecome(s, w, r);
    FiguresPop(Become(s, w, r));
    RecordsFrame(s.sagas, s.records, at, id, AtWorker(w));
    SettledWorker(s.sagas, s.workers, at, w, r);
    SettledFrame(s.sagas, s.workers[w := r], at, id, AtWorker(w));
    ReversalsKeep(s, at, Become(s, w, r), at[id := AtWorker(w)]);
  }

  lemma WorkerStays(s: State, at: map<string, Place>, w: nat, r: WorkerRun)
    requires Invariant(s, at) && w < |s.workers| && !s.workers[w].Idle? && !s.workers[w].Recording?
    requires !r.Idle? && !r.Recording? && r.e == s.workers[w].e
    ensures Invariant(Become(s, w, r), at)
  {
    WorkerOwnStay(s.workers, at, w, r);
    FiguresBecome(s, w, r);
    SettledWorker(s.sagas, s.workers, at, w, r);
    ReversalsKeep(s, at, Become(s, w, r), at);
  }

  lemma WorkerSettles(sagas: seq<SagaRun>, workers: seq<WorkerRun>, at: map<string, Place>, w: nat)
    requires w < |workers| && workers[w].Attempting?
    requires forall x :: x in at && at[x] == AtWorker(w) ==> x == workers[w].e.transferId
    requires workers[w].e.transferId in at && at[workers[w].e.transferId] == AtWorker(w)
    ensures var after := workers[w := Recording(workers[w].e)];
            var id := workers[w].e.transferId;
            && !Settled(sagas, workers, id, at[id]) && Settled(sagas, after, id, at[id])
            && forall x :: x in at && x != id ==>
                 (Settled(sagas, after, x, at[x]) <==> Settled(sagas, workers, x, at[x]))
  {
  }

  lemma WorkerReverses(s: State, at: map<string, Place>, w: nat)
    requires Invariant(s, at) && w < |s.workers| && s.workers[w].Attempting?
    ensures var e := s.workers[w].e;
            Invariant(Become(s, w, Recording(e))
                      .(reversals := s.reversals + multiset{Transfer(e.transferId, e.amountPaise)}), at)
  {
    var e := s.workers[w].e;
    var t := Transfer(e.transferId, e.amountPaise);
    WorkerOwnStay(s.workers, at, w, Recording(e));
    FiguresBecome(s, w, Recording(e));
    FiguresSame(Become(s, w, Recording(e)), Become(s, w, Recording(e)).(reversals := s.reversals + multiset{t}));
    OneHolder(s, at, w);
    WorkerSettles(s.sagas, s.workers, at, w);
    ReversalsAdd(s, at, Become(s, w, Recording(e)).(reversals := s.reversals + multiset{t}), t);
  }

  /** No two transfers are at one worker. */
  lemma OneHolder(s: State, at: map<string, Place>, w: nat)
    requires Invariant(s, at) && w < |s.workers| && !s.workers[w].Idle?
    ensures forall id :: id in at && at[id] == AtWorker(w) ==> id == s.workers[w].e.transferId
  {
  }

  lemma WorkerMarks(s: State, at: map<string, Place>, w: nat)
    requires Invariant(s, at) && w < |s.workers| && s.workers[w].Recording?
    ensures var id := s.workers[w].e.transferId;
            Invariant(Become(s, w, Idle).(tombstones := s.tombstones + {id}), at[id := Done])
  {
    var id := s.workers[w].e.transferId;
    WorkerMarksOwn(s, at, w);
    FiguresBecome(s, w, Idle);
    FiguresSame(Become(s, w, Idle), Become(s, w, Idle).(tombstones := s.tombstones + {id}));
    RecordsFrame(s.sagas, s.records, at, id, Done);
    OneHolder(s, at, w);
    SettledLeaves(s.sagas, s.workers, at, w, id, Done);
    ReversalsKeep(s, at, Become(s, w, Idle), at[id := Done]);
  }

  lemma SagaOwnFrameDone(sagas: seq<SagaRun>, at: map<string, Place>, id: string)
    requires SagaOwn(sagas, at) && id in at && at[id].AtWorker?
    ensures SagaOwn(sagas, at[id := Done])
  {
  }

  /** The worker lets go of its event. */
  lemma SettledLeaves(
    sagas: seq<SagaRun>, workers: seq<WorkerRun>, at: map<string, Place>, w: nat, id: string, p: Place)
    requires w < |workers| && id in at && at[id] == AtWorker(w)
    requires forall x :: x in at && at[x] == AtWorker(w) ==> x == id
    requires p == Done || p == InQueue || p == InDeadLetter
    requires workers[w].Recording? <==> p == Done
    ensures SameSettled(sagas, workers, at, sagas, workers[w := Idle], at[id := p])
  {
  }

  /** After the last retry a failed attempt sends the event to the dead letters. */
  lemma WorkerEscalates(s: State, at: map<string, Place>, w: nat)
    requires Invariant(s, at) && w < |s.workers| && s.workers[w].Failing?
    requires s.workers[w].e.retryCount + 1 >= s.workers[w].e.maxRetries
    ensures var e := s.workers[w].e;
            Invariant(Become(s, w, Idle).(dead := s.dead + [AfterFailure(e)]), at[e.transferId := InDeadLetter])
  {
    var e := s.workers[w].e;
    var f, id := AfterFailure(e), e.transferId;
    FiguresBecome(s, w, Idle);
    OneHolder(s, at, w);
    WorkerEscalatesOwn(s, at, w, f);
    FiguresEscalate(Become(s, w, Idle), f);
    RecordsFrame(s.sagas, s.records, at, id, InDeadLetter);
    SettledLeaves(s.sagas, s.workers, at, w, id, InDeadLetter);
    ReversalsKeep(s, at, Become(s, w, Idle), at[id := InDeadLetter]);
  }

  /** Before that it goes back to the pending queue. */
  lemma WorkerGivesBack(s: State, at: map<string, Place>, w: nat)
    requires Invariant(s, at) && w < |s.workers| && s.workers[w].Failing?
    requires s.workers[w].e.retryCount + 1 < s.workers[w].e.maxRetries
    ensures var e := s.workers[w].e;
            Invariant(Become(s, w, Idle).(pending := s.pending + [AfterFailure(e)]), at[e.transferId := InQueue])
  {
    var e := s.workers[w].e;
    var f, id := AfterFailure(e), e.transferId;
    FiguresBecome(s, w, Idle);
    OneHolder(s, at, w);
    WorkerGivesBackOwn(s, at, w, f);
    FiguresPush(Become(s, w, Idle), f);
    RecordsFrame(s.sagas, s.records, at, id, InQueue);
    SettledLeaves(s.sagas, s.workers, at, w, id, InQueue);
    ReversalsKeep(s, at, Become(s, w, Idle), at[id := InQueue]);
  }

  /** A transfer held by a worker is neither compensated nor unknown to the provider. */
  lemma HeldTransfer(s: State, at: map<string, Place>, w: nat)
    requires Invariant(s, at) && w < |s.workers| && !s.workers[w].Idle?
    ensures s.workers[w].e.transferId !in s.tombstones && s.workers[w].e.transferId in s.transfers
  {
  }

  lemma WorkerFails(s: State, at: map<string, Place>, w: nat, ok: bool) returns (at': map<string, Place>)
    requires Invariant(s, at) && w < |s.workers| && s.workers[w].Failing?
    ensures Invariant(WorkerNext(s, w, ok), at')
  {
    var e := s.workers[w].e;
    var s' := WorkerNext(s, w, ok);
    if e.retryCount + 1 >= e.maxRetries {
      assert s' == Become(s, w, Idle).(dead := s.dead + [AfterFailure(e)]);
      WorkerEscalates(s, at, w);
      return at[e.transferId := InDeadLetter];
    }
    assert s' == Become(s, w, Idle).(pending := s.pending + [AfterFailure(e)]);
    WorkerGivesBack(s, at, w);
    return at[e.transferId := InQueue];
  }

  lemma WorkerTries(s: State, at: map<string, Place>, w: nat, ok: bool)
    requires Invariant(s, at) && w < |s.workers| && (s.workers[w].Popped? || s.workers[w].Attempting?)
    ensures Invariant(WorkerNext(s, w, ok), at)
  {
    var e := s.workers[w].e;
    HeldTransfer(s, at, w);
    if s.workers[w].Popped? {
      WorkerStays(s, at, w, Attempting(e));
    } else if ok {
      WorkerReverses(s, at, w);
    } else {
      WorkerStays(s, at, w, Failing(e));
    }
  }

  lemma WorkerStepKeeps(s: State, at: map<string, Place>, w: nat, ok: bool) returns (at': map<string, Place>)
    requires Invariant(s, at) && w < |s.workers|
    ensures Invariant(WorkerNext(s, w, ok), at')
  {
    at' := at;
    match s.workers[w]
    case Idle => if |s.pending| > 0 { WorkerPops(s, at, w); at' := at[s.pending[0].transferId := AtWorker(w)]; }
    case Recording(e) => WorkerMarks(s, at, w); at' := at[e.transferId := Done];
    case Failing(_) => at' := WorkerFails(s, at, w, ok);
    case _ => WorkerTries(s, at, w, ok);
  }

  // ---------------------------------------------------------------- beginning a rollback

  lemma {:induction false} CreatedEntries(ts: seq<Transfer>)
    requires DistinctIds(ts)
    ensures forall id :: id in Created(ts) <==> HasTransfer(ts, id)
    ensures forall j :: 0 <= j < |ts| ==> ts[j].id in Created(ts) && Created(ts)[ts[j].id] == ts[j].amount
  {
    if |ts| > 0 {
      TailKeeps(ts);
      CreatedEntries(ts[1..]);
      forall j | 0 <= j < |ts| ensures ts[j].id in Created(ts) && Created(ts)[ts[j].id] == ts[j].amount {
        if j > 0 {
          assert ts[1..][j - 1] == ts[j];
        }
      }
    }
  }

  lemma ReverseKeeps(ts: seq<Transfer>)
    requires DistinctIds(ts)
    ensures DistinctIds(Reverse(ts))
    ensures forall id :: HasTransfer(Reverse(ts), id) <==> HasTransfer(ts, id)
  {
    var r := Reverse(ts);
    forall id | HasTransfer(ts, id) ensures HasTransfer(r, id) {
      var j :| 0 <= j < |ts| && ts[j].id == id;
      assert r[|ts| - 1 - j].id == id;
    }
  }

  /** New transfers wait at the new saga; compensated ones stay compensated. */
  function Assigned(at: map<string, Place>, ts: seq<Transfer>, i: nat): map<string, Place> {
    map id | id in at.Keys + Created(ts).Keys :: if id in at then at[id] else AtSaga(i)
  }

  lemma SagaOwnAppend(sagas: seq<SagaRun>, at: map<string, Place>, todo: seq<Transfer>, at': map<string, Place>)
    requires SagaOwn(sagas, at) && DistinctIds(todo)
    requires forall id :: id in at ==> id in at' && at'[id] == at[id]
    requires forall id :: id in at' && id !in at ==> at'[id] == AtSaga(|sagas|) && HasTransfer(todo, id)
    requires forall j :: 0 <= j < |todo| ==>
      todo[j].id in at' && (at'[todo[j].id] == AtSaga(|sagas|) || at'[todo[j].id] == Done)
    ensures SagaOwn(sagas + [SagaRun(todo, Checking)], at')
  {
  }

  lemma BeginOwns(s: State, at: map<string, Place>, ts: seq<Transfer>)
    requires Ownership(s, at) && CanBegin(s, ts)
    ensures SagaOwn(s.sagas + [SagaRun(Reverse(ts), Checking)], Assigned(at, ts, |s.sagas|))
  {
    CreatedEntries(ts);
    ReverseKeeps(ts);
    var i, at', todo := |s.sagas|, Assigned(at, ts, |s.sagas|), Reverse(ts);
    forall j | 0 <= j < |todo|
      ensures todo[j].id in at' && (at'[todo[j].id] == AtSaga(i) || at'[todo[j].id] == Done)
    {
      var k := |ts| - 1 - j;
      assert todo[j] == ts[k] && ts[k].id in Created(ts);
    }
    SagaOwnAppend(s.sagas, at, todo, at');
  }

  lemma FiguresAppend(s: State, todo: seq<Transfer>, transfers: map<string, nat>)
    requires Figures(s)
    requires forall id :: id in s.transfers ==> id in transfers && transfers[id] == s.transfers[id]
    requires forall j :: 0 <= j < |todo| ==> todo[j].id in transfers && transfers[todo[j].id] == todo[j].amount
    ensures Figures(s.(sagas := s.sagas + [SagaRun(todo, Checking)], transfers := transfers))
  {
  }

  lemma BeginTransfers(s: State, ts: seq<Transfer>)
    requires LegsOf(s, ts)
    ensures var after := s.transfers + Created(ts);
            && (forall id :: id in s.transfers ==> id in after && after[id] == s.transfers[id])
            && (forall j :: 0 <= j < |ts| ==>
                  Reverse(ts)[j].id in after && after[Reverse(ts)[j].id] == Reverse(ts)[j].amount)
  {
    CreatedEntries(ts);
    var after := s.transfers + Created(ts);
    forall id | id in s.transfers ensures after[id] == s.transfers[id] {
      if id in Created(ts) {
        var j :| 0 <= j < |ts| && ts[j].id == id;
      }
    }
    forall j | 0 <= j < |ts|
      ensures Reverse(ts)[j].id in after && after[Reverse(ts)[j].id] == Reverse(ts)[j].amount
    {
      assert Reverse(ts)[j] == ts[|ts| - 1 - j];
    }
  }

  lemma BeginSettled(s: State, at: map<string, Place>, ts: seq<Transfer>)
    requires Invariant(s, at) && CanBegin(s, ts)
    ensures var s' := Next(s, BeginRollback(ts));
            ReversalsFit(s'.sagas, s'.workers, s'.transfers, s'.reversals, Assigned(at, ts, |s.sagas|))
  {
    BeginTransfers(s, ts);
    var s' := Next(s, BeginRollback(ts));
    var at' := Assigned(at, ts, |s.sagas|);
    forall id | id in at' && id in s'.transfers
      ensures s'.reversals[Transfer(id, s'.transfers[id])] ==
              (if Settled(s'.sagas, s'.workers, id, at'[id]) then 1 else 0)
    {
      if id in at {
        assert Settled(s'.sagas, s'.workers, id, at[id]) <==> Settled(s.sagas, s.workers, id, at[id]);
      } else {
        assert Transfer(id, s'.transfers[id]) !in s.reversals;
      }
    }
  }

  lemma BeginOthers(s: State, at: map<string, Place>, ts: seq<Transfer>)
    requires Ownership(s, at)
    ensures var at' := Assigned(at, ts, |s.sagas|);
            && QueueOwn(s.pending, at', InQueue) && QueueOwn(s.dead, at', InDeadLetter)
            && WorkerOwn(s.workers, at') && TombstonesMark(s.tombstones, at')
            && LostFit(s.lost, s.transfers, at')
            && at'.Keys == (s.transfers + Created(ts)).Keys
  {
  }

  lemma BeginKeeps(s: State, at: map<string, Place>, ts: seq<Transfer>)
    requires Invariant(s, at) && CanBegin(s, ts)
    ensures Invariant(Next(s, BeginRollback(ts)), Assigned(at, ts, |s.sagas|))
  {
    BeginOwns(s, at, ts);
    BeginOthers(s, at, ts);
    BeginTransfers(s, ts);
    FiguresAppend(s, Reverse(ts), s.transfers + Created(ts));
    BeginSettled(s, at, ts);
    BeginRecords(s, at, ts);
  }

  lemma BeginRecords(s: State, at: map<string, Place>, ts: seq<Transfer>)
    requires Invariant(s, at) && CanBegin(s, ts)
    ensures RecordsFit(s.sagas + [SagaRun(Reverse(ts), Checking)], s.records, Assigned(at, ts, |s.sagas|))
  {
  }

  // ---------------------------------------------------------------- all runs

  lemma StartFits(workers: nat, maxRetries: nat)
    requires maxRetries > 0
    ensures Invariant(Start(workers, maxRetries), map[])
  {
  }

  lemma StepKeeps(s: State, at: map<string, Place>, a: Action) returns (at': map<string, Place>)
    requires Invariant(s, at)
    ensures Invariant(Next(s, a), at')
  {
    at' := at;
    match a
    case BeginRollback(ts) => if CanBegin(s, ts) { BeginKeeps(s, at, ts); at' := Assigned(at, ts, |s.sagas|); }
    case SagaStep(i, ok) => if i < |s.sagas| && |s.sagas[i].todo| > 0 { at' := SagaStepKeeps(s, at, i, ok); }
    case WorkerStep(w, ok) => if w < |s.workers| { at' := WorkerStepKeeps(s, at, w, ok); }
  }

  lemma {:induction false} RunKeepsFrom(s: State, at: map<string, Place>, actions: seq<Action>)
    returns (at': map<string, Place>)
    requires Invariant(s, at)
    ensures Invariant(Run(s, actions), at')
  {
    if |actions| == 0 {
      at' := at;
    } else {
      var n := |actions| - 1;
      at' := RunKeepsFrom(s, at, actions[..n]);
      at' := StepKeeps(Run(s, actions[..n]), at', actions[n]);
    }
  }

  lemma RunKeeps(workers: nat, maxRetries: nat, actions: seq<Action>) returns (at: map<string, Place>)
    requires maxRetries > 0
    ensures Invariant(Run(Start(workers, maxRetries), actions), at)
  {
    StartFits(workers, maxRetries);
    at := RunKeepsFrom(Start(workers, maxRetries), map[], actions);
  }

  lemma OnePlace(s: State, at: map<string, Place>, id: string)
    requires Invariant(s, at) && id in s.transfers
    ensures Responsible(s, id) == {at[id]}
  {
  }

  lemma RefundedIsSettled(s: State, at: map<string, Place>, id: string)
    requires Invariant(s, at) && id in s.transfers
    ensures Refunded(s, id) <==> Settled(s.sagas, s.workers, id, at[id])
  {
  }

  /**
   * In every run each transfer under rollback is in exactly one place, is listed there once, and has
   * been reversed exactly once if it is compensated or about to be marked so, and never otherwise. The
   * place is the log alone only for an amount that the queue cannot record.
   */
  lemma NeverDroppedNeverReversedTwice(workers: nat, maxRetries: nat, actions: seq<Action>)
    requires maxRetries > 0
    ensures var s := Run(Start(workers, maxRetries), actions);
            && (forall id :: id in s.transfers ==>
                  && (exists p :: Responsible(s, id) == {p})
                  && s.reversals[Transfer(id, s.transfers[id])] == (if Refunded(s, id) then 1 else 0))
            && (forall t :: t in s.reversals ==> t.id in s.transfers && t.amount == s.transfers[t.id])
            && (forall id :: id in s.lost ==> id in s.transfers && s.transfers[id] > MAX_PAISE)
            && DistinctEvents(s.pending) && DistinctEvents(s.dead)
  {
    var at := RunKeeps(workers, maxRetries, actions);
    var s := Run(Start(workers, maxRetries), actions);
    forall id | id in s.transfers
      ensures exists p :: Responsible(s, id) == {p}
      ensures s.reversals[Transfer(id, s.transfers[id])] == (if Refunded(s, id) then 1 else 0)
    {
      OnePlace(s, at, id);
      RefundedIsSettled(s, at, id);
    }
  }

  /** No saga has work left, no worker holds an event and the pending queue is empty. */
  ghost predicate AtRest(s: State) {
    && (forall i :: 0 <= i < |s.sagas| ==> |s.sagas[i].todo| == 0)
    && (forall w :: 0 <= w < |s.workers| ==> s.workers[w].Idle?)
    && |s.pending| == 0
  }

  /**
   * When everything has come to rest, each transfer was reversed once, or was not and is either a dead
   * letter or, above the recordable bound, lost.
   */
  lemma RestIsComplete(workers: nat, maxRetries: nat, actions: seq<Action>, id: string)
    requires maxRetries > 0
    requires var s := Run(Start(workers, maxRetries), actions); AtRest(s) && id in s.transfers
    ensures var s := Run(Start(workers, maxRetries), actions);
            var count := s.reversals[Transfer(id, s.transfers[id])];
            if id in s.tombstones then count == 1 && !HasEvent(s.dead, id) && id !in s.lost
            else count == 0 && (HasEvent(s.dead, id) <==> id !in s.lost) &&
                 (s.transfers[id] <= MAX_PAISE ==> HasEvent(s.dead, id))
  {
    var at := RunKeeps(workers, maxRetries, actions);
    OnePlace(Run(Start(workers, maxRetries), actions), at, id);
  }

  /** An event is dead-lettered after exactly maxRetries failed attempts, and retried before that. */
  lemma RetriesExhausted(workers: nat, maxRetries: nat, actions: seq<Action>)
    requires maxRetries > 0
    ensures var s := Run(Start(workers, maxRetries), actions);
            && (forall j :: 0 <= j < |s.dead| ==> s.dead[j].retryCount == maxRetries && EventFits(s, s.dead[j]))
            && (forall j :: 0 <= j < |s.pending| ==>
                  s.pending[j].retryCount < maxRetries && EventFits(s, s.pending[j]))
  {
    var at := RunKeeps(workers, maxRetries, actions);
    RetryLimitFixed(Start(workers, maxRetries), actions);
  }

  lemma StepRetryLimit(s: State, a: Action)
    ensures Next(s, a).maxRetries == s.maxRetries
  {
  }

  lemma {:induction false} RetryLimitFixed(s: State, actions: seq<Action>)
    ensures Run(s, actions).maxRetries == s.maxRetries
  {
    if |actions| > 0 {
      RetryLimitFixed(s, actions[..|actions| - 1]);
      StepRetryLimit(Run(s, actions[..|actions| - 1]), actions[|actions| - 1]);
    }
  }

  // ---------------------------------------------------------------- which transfers can be lost

  lemma TransferStays(s: State, a: Action, t: Transfer)
    requires t.id in s.transfers && s.transfers[t.id] == t.amount
    ensures t.id in Next(s, a).transfers && Next(s, a).transfers[t.id] == t.amount
  {
    if a.BeginRollback? && CanBegin(s, a.completed) {
      BeginTransfers(s, a.completed);
    }
  }

  lemma {:induction false} TransferStaysInRun(s: State, actions: seq<Action>, t: Transfer)
    requires t.id in s.transfers && s.transfers[t.id] == t.amount
    ensures t.id in Run(s, actions).transfers && Run(s, actions).transfers[t.id] == t.amount
  {
    if |actions| > 0 {
      TransferStaysInRun(s, actions[..|actions| - 1], t);
      TransferStays(Run(s, actions[..|actions| - 1]), actions[|actions| - 1], t);
    }
  }

  lemma BeginOne(workers: nat, maxRetries: nat, t: Transfer)
    requires t.amount > 0
    ensures var s := Next(Start(workers, maxRetries), BeginRollback([t]));
            s == Begun(Start(workers, maxRetries), [t]) &&
            s.sagas == [SagaRun([t], Checking)] && s.transfers == map[t.id := t.amount]
  {
    assert [t][1..] == [] && Created([]) == map[];
    assert Created([t]) == map[t.id := t.amount];
    assert Reverse([t]) == [t];
    assert map[] + Created([t]) == Created([t]);
  }

  lemma RunTwo(s: State, a: Action, b: Action)
    ensures Run(s, [a, b]) == Next(Next(s, a), b)
  {
    assert [a, b][..1] == [a] && [a][..0] == [];
    assert Run(s, [a]) == Next(s, a);
  }

  lemma LostIsLarge(s: State, at: map<string, Place>, actions: seq<Action>, t: Transfer)
    requires Invariant(s, at) && t.id in s.transfers && s.transfers[t.id] == t.amount
    requires t.id in Run(s, actions).lost
    ensures t.amount > MAX_PAISE
  {
    var at' := RunKeepsFrom(s, at, actions);
    TransferStaysInRun(s, actions, t);
    assert LostFit(Run(s, actions).lost, Run(s, actions).transfers, at');
  }

  /** The state right after one transfer's rollback has begun. */
  function OneRollback(workers: nat, maxRetries: nat, t: Transfer): State {
    Next(Start(workers, maxRetries), BeginRollback([t]))
  }

  ghost predicate CanBeLost(s: State, id: string) {
    exists actions :: id in Run(s, actions).lost
  }

  lemma LargeCanBeLost(workers: nat, maxRetries: nat, t: Transfer)
    requires t.amount > MAX_PAISE
    ensures CanBeLost(OneRollback(workers, maxRetries, t), t.id)
  {
    var s := OneRollback(workers, maxRetries, t);
    BeginOne(workers, maxRetries, t);
    var a, b := SagaStep(0, true), SagaStep(0, false);
    RunTwo(s, a, b);
    assert Next(s, a).sagas == [SagaRun([t], Reversing)];
    assert t.id in Run(s, [a, b]).lost;
  }

  /** The rollback of a transfer can lose it exactly when the queue cannot record its amount. */
  lemma LostExactly(workers: nat, maxRetries: nat, t: Transfer)
    requires maxRetries > 0 && t.amount > 0
    ensures CanBeLost(OneRollback(workers, maxRetries, t), t.id) <==> t.amount > MAX_PAISE
  {
    BeginOne(workers, maxRetries, t);
    StartFits(workers, maxRetries);
    var s := OneRollback(workers, maxRetries, t);
    var at := StepKeeps(Start(workers, maxRetries), map[], BeginRollback([t]));
    if CanBeLost(s, t.id) {
      var actions :| t.id in Run(s, actions).lost;
      LostIsLarge(s, at, actions, t);
    }
    if t.amount > MAX_PAISE {
      LargeCanBeLost(workers, maxRetries, t);
    }
  }
}
