/** Rollback under interleaving: any number of sagas compensating, any number of queue workers. */
module CompensationProtocol {
  // Every storage or provider call is one atomic step.

  import opened CompensationTypes
  import opened Paise

  /** Where a saga stands with the first transfer of its todo list. */
  datatype Phase =
    | Checking            // before isAlreadyCompensated
    | Reversing           // before reverseTransfer
    | Marking             // reversal succeeded, before markCompensated
    | EnqueueChecking     // reversal failed, inside enqueueReversal before its own tombstone check
    | EnqueueLookup       // before reading the idempotency record
    | EnqueueRecording    // before writing the idempotency record
    | EnqueuePushing      // before pushing onto the pending queue

  /** Transfers still to compensate, last completed first. */
  datatype SagaRun = SagaRun(todo: seq<Transfer>, phase: Phase)

  datatype WorkerRun =
    | Idle
    | Popped(e: Event)       // before isAlreadyCompensated
    | Attempting(e: Event)   // before reverseTransfer
    | Recording(e: Event)    // reversal succeeded, before markCompensated
    | Failing(e: Event)      // reversal failed, before requeue or escalation

  /** `lost` holds the transfers that only the log remembers: not reversed, and refused by the queue. */
  datatype State = State(
    sagas: seq<SagaRun>,
    workers: seq<WorkerRun>,
    pending: seq<Event>,
    dead: seq<Event>,
    tombstones: set<string>,
    records: set<string>,
    transfers: map<string, nat>,
    reversals: multiset<Transfer>,
    lost: set<string>,
    maxRetries: nat)

  datatype Action =
    | BeginRollback(completed: seq<Transfer>)
    | SagaStep(saga: nat, providerOk: bool)
    | WorkerStep(worker: nat, providerOk: bool)

  function Start(workers: nat, maxRetries: nat): State {
    State([], seq(workers, _ => Idle), [], [], {}, {}, map[], multiset{}, {}, maxRetries)
  }

  predicate DistinctIds(ts: seq<Transfer>) {
    forall i, j :: 0 <= i < j < |ts| ==> ts[i].id != ts[j].id
  }

  /**
   * The completed legs of a failing split: distinct, positive, and of the amount the provider recorded
   * when it returns a transfer that already exists.
   */
  predicate LegsOf(s: State, completed: seq<Transfer>) {
    && DistinctIds(completed)
    && forall i :: 0 <= i < |completed| ==>
         completed[i].amount > 0 &&
         (completed[i].id in s.transfers ==> completed[i].amount == s.transfers[completed[i].id])
  }

  /** Each of the legs is newly created, or, on a retried payment, has been compensated before. */
  predicate NewOrCompensated(s: State, completed: seq<Transfer>) {
    forall i :: 0 <= i < |completed| ==> completed[i].id in s.transfers ==> completed[i].id in s.tombstones
  }

  /** What a rollback can begin with when payment ids are distinct. */
  predicate CanBegin(s: State, completed: seq<Transfer>) {
    LegsOf(s, completed) && NewOrCompensated(s, completed)
  }

  function Reverse<T>(s: seq<T>): (r: seq<T>)
    ensures |r| == |s| && forall i :: 0 <= i < |r| ==> r[i] == s[|s| - 1 - i]
  {
    seq(|s|, i requires 0 <= i < |s| => s[|s| - 1 - i])
  }

  function Created(completed: seq<Transfer>): map<string, nat> {
    if |completed| == 0 then map[] else Created(completed[1..])[completed[0].id := completed[0].amount]
  }

  /** mock-mode reverseTransfer succeeds only for a transfer in its ledger. */
  predicate ProviderReverses(s: State, id: string, ok: bool) {
    ok && id in s.transfers
  }

  /** Saga i moves to another phase of the same transfer. */
  function Stay(s: State, i: nat, p: Phase): State
    requires i < |s.sagas|
  {
    s.(sagas := s.sagas[i := s.sagas[i].(phase := p)])
  }

  /** Saga i is finished with its first transfer. */
  function Advance(s: State, i: nat): State
    requires i < |s.sagas| && |s.sagas[i].todo| > 0
  {
    s.(sagas := s.sagas[i := SagaRun(s.sagas[i].todo[1..], Checking)])
  }

  function Become(s: State, w: nat, r: WorkerRun): State
    requires w < |s.workers|
  {
    s.(workers := s.workers[w := r])
  }

  function SagaNext(s: State, i: nat, ok: bool): State
    requires i < |s.sagas| && |s.sagas[i].todo| > 0
  {
    var t := s.sagas[i].todo[0];
    match s.sagas[i].phase
    case Checking => if t.id in s.tombstones then Advance(s, i) else Stay(s, i, Reversing)
    case Reversing =>
      if ProviderReverses(s, t.id, ok) then Stay(s, i, Marking).(reversals := s.reversals + multiset{t})
      else if t.amount > MAX_PAISE then Advance(s, i).(lost := s.lost + {t.id})
      else Stay(s, i, EnqueueChecking)
    case Marking => Advance(s, i).(tombstones := s.tombstones + {t.id})
    case EnqueueChecking => if t.id in s.tombstones then Advance(s, i) else Stay(s, i, EnqueueLookup)
    case EnqueueLookup =>
      if ReversalKey(t.id) in s.records then Advance(s, i) else Stay(s, i, EnqueueRecording)
    case EnqueueRecording => Stay(s, i, EnqueuePushing).(records := s.records + {ReversalKey(t.id)})
    case EnqueuePushing => Advance(s, i).(pending := s.pending + [NewEvent(t, s.maxRetries)])
  }

  function WorkerNext(s: State, w: nat, ok: bool): State
    requires w < |s.workers|
  {
    match s.workers[w]
    case Idle =>
      if |s.pending| == 0 then s else Become(s, w, Popped(s.pending[0])).(pending := s.pending[1..])
    case Popped(e) =>
      if e.transferId in s.tombstones then Become(s, w, Idle) else Become(s, w, Attempting(e))
    case Attempting(e) =>
      if ProviderReverses(s, e.transferId, ok) then
        Become(s, w, Recording(e))
        .(reversals := s.reversals + multiset{Transfer(e.transferId, e.amountPaise)})
      else Become(s, w, Failing(e))
    case Recording(e) => Become(s, w, Idle).(tombstones := s.tombstones + {e.transferId})
    case Failing(e) =>
      if e.retryCount + 1 >= e.maxRetries then Become(s, w, Idle).(dead := s.dead + [AfterFailure(e)])
      else Become(s, w, Idle).(pending := s.pending + [AfterFailure(e)])
  }

  /** A new saga starts to compensate the completed legs, last first. */
  function Begun(s: State, completed: seq<Transfer>): State {
    s.(sagas := s.sagas + [SagaRun(Reverse(completed), Checking)], transfers := s.transfers + Created(completed))
  }

  /** One atomic step; an action that is not enabled changes nothing. */
  function Next(s: State, a: Action): State {
    match a
    case BeginRollback(completed) => if CanBegin(s, completed) then Begun(s, completed) else s
    case SagaStep(i, ok) => if i < |s.sagas| && |s.sagas[i].todo| > 0 then SagaNext(s, i, ok) else s
    case WorkerStep(w, ok) => if w < |s.workers| then WorkerNext(s, w, ok) else s
  }

  function Run(s: State, actions: seq<Action>): State {
    if |actions| == 0 then s else Next(Run(s, actions[..|actions| - 1]), actions[|actions| - 1])
  }

  lemma {:induction false} RunAppend(s: State, a: seq<Action>, b: seq<Action>)
    ensures Run(s, a + b) == Run(Run(s, a), b)
  {
    if |b| == 0 {
      assert a + b == a;
    } else {
      var n := |b| - 1;
      RunAppend(s, a, b[..n]);
      assert (a + b)[..|a + b| - 1] == a + b[..n];
    }
  }

  // ---------------------------------------------------------------- who is responsible for a transfer

  datatype Place = AtSaga(saga: nat) | InQueue | AtWorker(worker: nat) | InDeadLetter | Done | Lost

  predicate HasTransfer(todo: seq<Transfer>, id: string) {
    exists j :: 0 <= j < |todo| && todo[j].id == id
  }

  predicate HasEvent(q: seq<Event>, id: string) {
    exists j :: 0 <= j < |q| && q[j].transferId == id
  }

  predicate Holds(r: WorkerRun, id: string) {
    !r.Idle? && r.e.transferId == id
  }

  predicate DistinctEvents(q: seq<Event>) {
    forall i, j :: 0 <= i < j < |q| ==> q[i].transferId != q[j].transferId
  }

  /** Every place that is responsible for transfer `id`. A saga is not, once the tombstone is set. */
  ghost function Responsible(s: State, id: string): set<Place> {
    (set i: nat | i < |s.sagas| && HasTransfer(s.sagas[i].todo, id) && id !in s.tombstones :: AtSaga(i))
    + (if HasEvent(s.pending, id) then {InQueue} else {})
    + (set w: nat | w < |s.workers| && Holds(s.workers[w], id) :: AtWorker(w))
    + (if HasEvent(s.dead, id) then {InDeadLetter} else {})
    + (if id in s.tombstones then {Done} else {})
    + (if id in s.lost then {Lost} else {})
  }

  /** The provider has already reversed the transfer, although its tombstone may not be set yet. */
  ghost predicate Refunded(s: State, id: string) {
    || id in s.tombstones
    || (exists i :: 0 <= i < |s.sagas| && |s.sagas[i].todo| > 0 &&
          s.sagas[i].todo[0].id == id && s.sagas[i].phase == Marking)
    || (exists w :: 0 <= w < |s.workers| && s.workers[w].Recording? && s.workers[w].e.transferId == id)
  }

  // ---------------------------------------------------------------- inductive invariant
  // `at` names the one place responsible for each transfer.

  /** Every listed transfer is owned by its saga, or compensated already and about to be skipped. */
  ghost predicate SagaOwn(sagas: seq<SagaRun>, at: map<string, Place>) {
    && (forall i :: 0 <= i < |sagas| ==> DistinctIds(sagas[i].todo))
    && (forall i, j :: 0 <= i < |sagas| && 0 <= j < |sagas[i].todo| ==>
          var id := sagas[i].todo[j].id;
          id in at && (at[id] == AtSaga(i) || (at[id] == Done && (j == 0 ==> sagas[i].phase == Checking))))
    && (forall id :: id in at && at[id].AtSaga? ==>
          at[id].saga < |sagas| && HasTransfer(sagas[at[id].saga].todo, id))
  }

  ghost predicate QueueOwn(q: seq<Event>, at: map<string, Place>, p: Place) {
    && DistinctEvents(q)
    && (forall j :: 0 <= j < |q| ==> q[j].transferId in at && at[q[j].transferId] == p)
    && (forall id :: id in at && at[id] == p ==> HasEvent(q, id))
  }

  ghost predicate WorkerOwn(workers: seq<WorkerRun>, at: map<string, Place>) {
    && (forall w :: 0 <= w < |workers| && !workers[w].Idle? ==>
          workers[w].e.transferId in at && at[workers[w].e.transferId] == AtWorker(w))
    && (forall id :: id in at && at[id].AtWorker? ==>
          at[id].worker < |workers| && Holds(workers[at[id].worker], id))
  }

  ghost predicate TombstonesMark(tombstones: set<string>, at: map<string, Place>) {
    forall id :: id in tombstones <==> id in at && at[id] == Done
  }

  /** Only transfers above the largest recordable amount are lost. */
  ghost predicate LostFit(lost: set<string>, transfers: map<string, nat>, at: map<string, Place>) {
    && (forall id :: id in lost <==> id in at && at[id] == Lost)
    && (forall id :: id in lost && id in transfers ==> transfers[id] > MAX_PAISE)
  }

  ghost predicate Ownership(s: State, at: map<string, Place>) {
    && at.Keys == s.transfers.Keys
    && SagaOwn(s.sagas, at)
    && QueueOwn(s.pending, at, InQueue)
    && QueueOwn(s.dead, at, InDeadLetter)
    && WorkerOwn(s.workers, at)
    && TombstonesMark(s.tombstones, at)
    && LostFit(s.lost, s.transfers, at)
  }

  /** An event carries its transfer's own amount and default key. */
  predicate EventFits(s: State, e: Event) {
    && e.transferId in s.transfers && s.transfers[e.transferId] == e.amountPaise
    && e.idempotencyKey == ReversalKey(e.transferId) && e.maxRetries == s.maxRetries
  }

  /** Amounts and retry counters, independent of who owns what. */
  ghost predicate Figures(s: State) {
    && s.maxRetries > 0
    && (forall i, j :: 0 <= i < |s.sagas| && 0 <= j < |s.sagas[i].todo| ==>
          var t := s.sagas[i].todo[j];
          t.id in s.transfers && s.transfers[t.id] == t.amount)
    && (forall j :: 0 <= j < |s.pending| ==>
          EventFits(s, s.pending[j]) && s.pending[j].retryCount < s.maxRetries)
    && (forall j :: 0 <= j < |s.dead| ==>
          EventFits(s, s.dead[j]) && s.dead[j].retryCount == s.maxRetries)
    && (forall w :: 0 <= w < |s.workers| && !s.workers[w].Idle? ==>
          EventFits(s, s.workers[w].e) && s.workers[w].e.retryCount < s.maxRetries)
  }

  ghost predicate AtHead(sagas: seq<SagaRun>, id: string, p: Place, phase: Phase) {
    p.AtSaga? && p.saga < |sagas| && |sagas[p.saga].todo| > 0 &&
    sagas[p.saga].todo[0].id == id && sagas[p.saga].phase == phase
  }

  /** Only a saga about to push has an idempotency record for a transfer it still owns. */
  ghost predicate RecordsFit(sagas: seq<SagaRun>, records: set<string>, at: map<string, Place>) {
    && (forall id :: id !in at ==> ReversalKey(id) !in records)
    && (forall id :: id in at && at[id].AtSaga? && ReversalKey(id) in records ==>
          AtHead(sagas, id, at[id], EnqueuePushing))
  }

  /** Compensated, or reversed at the provider and about to be marked. */
  ghost predicate Settled(sagas: seq<SagaRun>, workers: seq<WorkerRun>, id: string, p: Place) {
    || p == Done
    || AtHead(sagas, id, p, Marking)
    || (p.AtWorker? && p.worker < |workers| && workers[p.worker].Recording?)
  }

  /** The provider has reversed a settled transfer exactly once and any other transfer never. */
  ghost predicate ReversalsFit(
    sagas: seq<SagaRun>, workers: seq<WorkerRun>, transfers: map<string, nat>,
    reversals: multiset<Transfer>, at: map<string, Place>)
  {
    && (forall t :: t in reversals ==> t.id in transfers && transfers[t.id] == t.amount)
    && (forall id :: id in at && id in transfers ==>
          reversals[Transfer(id, transfers[id])] == (if Settled(sagas, workers, id, at[id]) then 1 else 0))
  }

  ghost predicate Invariant(s: State, at: map<string, Place>) {
    && Ownership(s, at) && Figures(s)
    && RecordsFit(s.sagas, s.records, at)
    && ReversalsFit(s.sagas, s.workers, s.transfers, s.reversals, at)
  }

  // ---------------------------------------------------------------- moving one transfer between owners

  lemma SagaOwnFrame(sagas: seq<SagaRun>, at: map<string, Place>, id: string, p: Place)
    requires SagaOwn(sagas, at) && id in at && !at[id].AtSaga? && at[id] != Done && !p.AtSaga?
    ensures SagaOwn(sagas, at[id := p])
  {
  }

  lemma SagaOwnStay(sagas: seq<SagaRun>, at: map<string, Place>, i: nat, phase: Phase)
    requires SagaOwn(sagas, at) && i < |sagas| && |sagas[i].todo| > 0
    requires phase == Checking || at[sagas[i].todo[0].id] == AtSaga(i)
    ensures SagaOwn(sagas[i := sagas[i].(phase := phase)], at)
  {
  }

  lemma SagaOwnSkip(sagas: seq<SagaRun>, at: map<string, Place>, i: nat)
    requires SagaOwn(sagas, at) && i < |sagas| && |sagas[i].todo| > 0
    requires sagas[i].todo[0].id in at && at[sagas[i].todo[0].id] == Done
    ensures SagaOwn(sagas[i := SagaRun(sagas[i].todo[1..], Checking)], at)
  {
    var r := SagaRun(sagas[i].todo[1..], Checking);
    TailKeeps(sagas[i].todo);
  }

  lemma TailKeeps(todo: seq<Transfer>)
    requires |todo| > 0
    ensures forall id :: HasTransfer(todo, id) <==> id == todo[0].id || HasTransfer(todo[1..], id)
    ensures forall j :: 0 <= j < |todo[1..]| ==> todo[1..][j] == todo[j + 1]
  {
    forall id | HasTransfer(todo, id) ensures id == todo[0].id || HasTransfer(todo[1..], id) {
      var j :| 0 <= j < |todo| && todo[j].id == id;
      assert j > 0 ==> todo[1..][j - 1] == todo[j];
    }
    forall id | id == todo[0].id || HasTransfer(todo[1..], id) ensures HasTransfer(todo, id) {
      if HasTransfer(todo[1..], id) {
        var j :| 0 <= j < |todo[1..]| && todo[1..][j].id == id;
        assert todo[j + 1].id == id;
      }
    }
  }

  lemma SagaOwnFinish(sagas: seq<SagaRun>, at: map<string, Place>, i: nat, p: Place)
    requires SagaOwn(sagas, at) && i < |sagas| && |sagas[i].todo| > 0
    requires sagas[i].todo[0].id in at && at[sagas[i].todo[0].id] == AtSaga(i) && !p.AtSaga?
    ensures SagaOwn(sagas[i := SagaRun(sagas[i].todo[1..], Checking)], at[sagas[i].todo[0].id := p])
  {
    TailKeeps(sagas[i].todo);
  }

  lemma QueueOwnFrame(q: seq<Event>, at: map<string, Place>, p: Place, id: string, p': Place)
    requires QueueOwn(q, at, p) && id in at && at[id] != p && p' != p
    ensures QueueOwn(q, at[id := p'], p)
  {
  }

  lemma QueueOwnPush(q: seq<Event>, at: map<string, Place>, p: Place, e: Event)
    requires QueueOwn(q, at, p) && e.transferId in at && at[e.transferId] != p
    ensures QueueOwn(q + [e], at[e.transferId := p], p)
  {
    var r := q + [e];
    assert r[|q|] == e;
    forall id | HasEvent(q, id) ensures HasEvent(r, id) {
      var j :| 0 <= j < |q| && q[j].transferId == id;
      assert r[j].transferId == id;
    }
  }

  lemma QueueOwnPop(q: seq<Event>, at: map<string, Place>, p: Place, p': Place)
    requires QueueOwn(q, at, p) && |q| > 0 && p' != p
    ensures QueueOwn(q[1..], at[q[0].transferId := p'], p)
  {
    forall id | HasEvent(q, id) && id != q[0].transferId ensures HasEvent(q[1..], id) {
      var j :| 0 <= j < |q| && q[j].transferId == id;
      assert q[1..][j - 1].transferId == id;
    }
  }

  lemma WorkerOwnFrame(workers: seq<WorkerRun>, at: map<string, Place>, id: string, p: Place)
    requires WorkerOwn(workers, at) && id in at && !at[id].AtWorker? && !p.AtWorker?
    ensures WorkerOwn(workers, at[id := p])
  {
  }

  lemma WorkerOwnTake(workers: seq<WorkerRun>, at: map<string, Place>, w: nat, r: WorkerRun)
    requires WorkerOwn(workers, at) && w < |workers| && workers[w].Idle? && !r.Idle?
    requires r.e.transferId in at && !at[r.e.transferId].AtWorker?
    ensures WorkerOwn(workers[w := r], at[r.e.transferId := AtWorker(w)])
  {
  }

  lemma WorkerOwnStay(workers: seq<WorkerRun>, at: map<string, Place>, w: nat, r: WorkerRun)
    requires WorkerOwn(workers, at) && w < |workers| && !workers[w].Idle? && !r.Idle? && r.e == workers[w].e
    ensures WorkerOwn(workers[w := r], at)
  {
  }

  lemma WorkerOwnDrop(workers: seq<WorkerRun>, at: map<string, Place>, w: nat, p: Place)
    requires WorkerOwn(workers, at) && w < |workers| && !workers[w].Idle? && !p.AtWorker?
    ensures WorkerOwn(workers[w := Idle], at[workers[w].e.transferId := p])
  {
  }

  // ---------------------------------------------------------------- idempotency records

  lemma RecordsFrame(sagas: seq<SagaRun>, records: set<string>, at: map<string, Place>, id: string, p: Place)
    requires RecordsFit(sagas, records, at) && id in at && !p.AtSaga?
    ensures RecordsFit(sagas, records, at[id := p])
  {
  }

  lemma RecordsFinish(sagas: seq<SagaRun>, records: set<string>, at: map<string, Place>, i: nat, p: Place)
    requires RecordsFit(sagas, records, at) && i < |sagas| && |sagas[i].todo| > 0 && !p.AtSaga?
    requires sagas[i].todo[0].id in at && at[sagas[i].todo[0].id] == AtSaga(i)
    ensures RecordsFit(sagas[i := SagaRun(sagas[i].todo[1..], Checking)], records, at[sagas[i].todo[0].id := p])
  {
  }

  lemma RecordsStay(sagas: seq<SagaRun>, records: set<string>, at: map<string, Place>, i: nat, phase: Phase)
    requires RecordsFit(sagas, records, at) && i < |sagas| && sagas[i].phase != EnqueuePushing
    ensures RecordsFit(sagas[i := sagas[i].(phase := phase)], records, at)
  {
  }

  lemma RecordsAdd(sagas: seq<SagaRun>, records: set<string>, at: map<string, Place>, i: nat)
    requires RecordsFit(sagas, records, at) && i < |sagas| && |sagas[i].todo| > 0
    requires sagas[i].phase == EnqueueRecording
    requires sagas[i].todo[0].id in at && at[sagas[i].todo[0].id] == AtSaga(i)
    ensures RecordsFit(sagas[i := sagas[i].(phase := EnqueuePushing)],
                       records + {ReversalKey(sagas[i].todo[0].id)}, at)
  {
    var id := sagas[i].todo[0].id;
    RecordsStay(sagas, records, at, i, EnqueuePushing);
    forall x | ReversalKey(x) == ReversalKey(id) ensures x == id {
      ReversalKeyInjective(x, id);
    }
  }

  // ---------------------------------------------------------------- reversals

  /** Nothing changes for the provider when nobody becomes or stops being settled. */
  ghost predicate SameSettled(
    sagas: seq<SagaRun>, workers: seq<WorkerRun>, at: map<string, Place>,
    sagas': seq<SagaRun>, workers': seq<WorkerRun>, at': map<string, Place>)
  {
    at'.Keys == at.Keys &&
    forall id :: id in at ==> (Settled(sagas', workers', id, at'[id]) <==> Settled(sagas, workers, id, at[id]))
  }

  lemma SettledFrame(sagas: seq<SagaRun>, workers: seq<WorkerRun>, at: map<string, Place>, id: string, p: Place)
    requires id in at && !Settled(sagas, workers, id, at[id]) && !Settled(sagas, workers, id, p)
    ensures SameSettled(sagas, workers, at, sagas, workers, at[id := p])
  {
  }

  lemma SettledStay(sagas: seq<SagaRun>, workers: seq<WorkerRun>, at: map<string, Place>, i: nat, phase: Phase)
    requires i < |sagas| && sagas[i].phase != Marking && phase != Marking
    ensures SameSettled(sagas, workers, at, sagas[i := sagas[i].(phase := phase)], workers, at)
  {
  }

  lemma SettledFinish(sagas: seq<SagaRun>, workers: seq<WorkerRun>, at: map<string, Place>, i: nat, p: Place)
    requires i < |sagas| && |sagas[i].todo| > 0
    requires sagas[i].todo[0].id in at && at[sagas[i].todo[0].id] == AtSaga(i)
    requires p == Done || p == InQueue || p == Lost
    requires p == Done <==> sagas[i].phase == Marking
    ensures SameSettled(sagas, workers, at,
                        sagas[i := SagaRun(sagas[i].todo[1..], Checking)], workers, at[sagas[i].todo[0].id := p])
  {
  }

  lemma SettledSkip(sagas: seq<SagaRun>, workers: seq<WorkerRun>, at: map<string, Place>, i: nat)
    requires i < |sagas| && |sagas[i].todo| > 0 && sagas[i].phase == Checking
    ensures SameSettled(sagas, workers, at, sagas[i := SagaRun(sagas[i].todo[1..], Checking)], workers, at)
  {
  }

  lemma SettledWorker(sagas: seq<SagaRun>, workers: seq<WorkerRun>, at: map<string, Place>, w: nat, r: WorkerRun)
    requires w < |workers| && !workers[w].Recording? && !r.Recording?
    ensures SameSettled(sagas, workers, at, sagas, workers[w := r], at)
  {
  }

  lemma ReversalsKeep(s: State, at: map<string, Place>, s': State, at': map<string, Place>)
    requires ReversalsFit(s.sagas, s.workers, s.transfers, s.reversals, at)
    requires SameSettled(s.sagas, s.workers, at, s'.sagas, s'.workers, at')
    requires s'.transfers == s.transfers && s'.reversals == s.reversals
    ensures ReversalsFit(s'.sagas, s'.workers, s'.transfers, s'.reversals, at')
  {
  }

  /** One reversal goes with exactly one transfer becoming settled. */
  lemma ReversalsAdd(s: State, at: map<string, Place>, s': State, t: Transfer)
    requires ReversalsFit(s.sagas, s.workers, s.transfers, s.reversals, at)
    requires t.id in at && t.id in s.transfers && s.transfers[t.id] == t.amount
    requires s'.transfers == s.transfers && s'.reversals == s.reversals + multiset{t}
    requires !Settled(s.sagas, s.workers, t.id, at[t.id]) && Settled(s'.sagas, s'.workers, t.id, at[t.id])
    requires forall id :: id in at && id != t.id ==>
      (Settled(s'.sagas, s'.workers, id, at[id]) <==> Settled(s.sagas, s.workers, id, at[id]))
    ensures ReversalsFit(s'.sagas, s'.workers, s'.transfers, s'.reversals, at)
  {
  }
}
