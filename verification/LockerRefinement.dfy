/** The in-memory locker answers every request exactly as the Redis scripts do. */
module LockerRefinement {
  // In memory a reservation is filed under its lock token, in Redis under the entry that joins token and SKU.

  import opened Inventory
  import opened RedisInventory
  import opened MemoryLocker

  ghost predicate Renames(m: map<string, Reservation>, n: map<string, Reservation>) {
    && (forall t :: t in m ==>
          SEPARATOR !in t && BuildReservationEntry(t, m[t].sku) in n && n[BuildReservationEntry(t, m[t].sku)] == m[t])
    && (forall e :: e in n ==> exists t :: t in m && e == BuildReservationEntry(t, m[t].sku))
  }

  lemma EntriesDiffer(t: string, s: string, t': string, s': string)
    requires SEPARATOR !in t && SEPARATOR !in t' && t != t'
    ensures BuildReservationEntry(t, s) != BuildReservationEntry(t', s')
  {
    if BuildReservationEntry(t, s) == BuildReservationEntry(t', s') {
      EntryInjective(t, s, t', s');
    }
  }

  lemma RenamesRemove(m: map<string, Reservation>, n: map<string, Reservation>, t: string)
    requires Renames(m, n) && t in m
    ensures Renames(m - {t}, n - {BuildReservationEntry(t, m[t].sku)})
  {
    forall t' | t' in m && t' != t ensures BuildReservationEntry(t', m[t'].sku) != BuildReservationEntry(t, m[t].sku) {
      EntriesDiffer(t', m[t'].sku, t, m[t].sku);
    }
  }

  lemma RenamesAdd(m: map<string, Reservation>, n: map<string, Reservation>, t: string, r: Reservation)
    requires Renames(m, n) && t !in m && SEPARATOR !in t
    ensures BuildReservationEntry(t, r.sku) !in n
    ensures Renames(m[t := r], n[BuildReservationEntry(t, r.sku) := r])
  {
    var e, m' := BuildReservationEntry(t, r.sku), m[t := r];
    forall t' | t' in m ensures BuildReservationEntry(t', m[t'].sku) != e {
      EntriesDiffer(t', m[t'].sku, t, r.sku);
    }
    var n' := n[e := r];
    forall e' | e' in n' ensures exists t' :: t' in m' && e' == BuildReservationEntry(t', m'[t'].sku) {
      if e' == e {
        assert t in m' && e' == BuildReservationEntry(t, m'[t].sku);
      } else {
        var t' :| t' in m && e' == BuildReservationEntry(t', m[t'].sku);
        assert t' in m' && e' == BuildReservationEntry(t', m'[t'].sku);
      }
    }
  }

  lemma RenamesParts(m: map<string, Reservation>, n: map<string, Reservation>, now: int)
    requires Renames(m, n)
    ensures Renames(Expired(m, now), Expired(n, now)) && Renames(Kept(m, now), Kept(n, now))
  {
    forall e | e in n ensures exists t :: t in m && e == BuildReservationEntry(t, m[t].sku) && n[e] == m[t] {
      var t :| t in m && e == BuildReservationEntry(t, m[t].sku);
      assert n[BuildReservationEntry(t, m[t].sku)] == m[t];
    }
  }

  lemma {:induction false} RenamedUnits(m: map<string, Reservation>, n: map<string, Reservation>, sku: string)
    requires Renames(m, n)
    ensures Units(m, sku) == Units(n, sku)
    decreases |m|
  {
    if m == map[] {
      assert n == map[];
    } else {
      var t :| t in m;
      var e := BuildReservationEntry(t, m[t].sku);
      RenamesRemove(m, n, t);
      RenamedUnits(m - {t}, n - {e}, sku);
      UnitsRemove(m, t, sku);
      UnitsRemove(n, e, sku);
    }
  }

  lemma {:induction false} RenamedTotals(m: map<string, Reservation>, n: map<string, Reservation>)
    requires Renames(m, n)
    ensures TotalUnits(m) == TotalUnits(n)
    decreases |m|
  {
    if m == map[] {
      assert n == map[];
    } else {
      var t :| t in m;
      var e := BuildReservationEntry(t, m[t].sku);
      RenamesRemove(m, n, t);
      RenamedTotals(m - {t}, n - {e});
      TotalRemove(m, t);
      TotalRemove(n, e);
    }
  }

  lemma SizeRemove(m: map<string, Reservation>, k: string)
    requires k in m
    ensures |m| == |m - {k}| + 1
  {
    assert (m - {k}).Keys == m.Keys - {k};
  }

  lemma {:induction false} RenamedSizes(m: map<string, Reservation>, n: map<string, Reservation>)
    requires Renames(m, n)
    ensures |m| == |n|
    decreases |m|
  {
    if m == map[] {
      assert n == map[];
    } else {
      var t :| t in m;
      var e := BuildReservationEntry(t, m[t].sku);
      RenamesRemove(m, n, t);
      RenamedSizes(m - {t}, n - {e});
      SizeRemove(m, t);
      SizeRemove(n, e);
    }
  }

  lemma RenamedSkus(m: map<string, Reservation>, n: map<string, Reservation>)
    requires Renames(m, n)
    ensures Skus(m) == Skus(n)
  {
    forall s | s in Skus(m) ensures s in Skus(n) {
      var t :| t in m && m[t].sku == s;
      assert n[BuildReservationEntry(t, m[t].sku)].sku == s;
    }
    forall s | s in Skus(n) ensures s in Skus(m) {
      var e :| e in n && n[e].sku == s;
      var t :| t in m && e == BuildReservationEntry(t, m[t].sku);
      assert n[BuildReservationEntry(t, m[t].sku)] == m[t];
    }
  }

  // ---------------------------------------------------------------- runs of both lockers

  datatype Request =
    | Lock(lockToken: string, sku: string, quantity: nat, sweptAt: int, expiresAt: int)
    | Reclaim(now: int)
    | Settle(lockToken: string, sku: string)

  datatype Answer =
    | Locked(result: LockResult)
    | Reclaimed(releasedCount: nat, restoredUnits: nat)
    | Settled(removed: bool)

  /** Whether entries are filed under the joined entry or under the bare token. */
  datatype Backend = Redis | Memory

  function Key(b: Backend, lockToken: string, sku: string): string {
    if b.Redis? then BuildReservationEntry(lockToken, sku) else lockToken
  }

  ghost function Serve(b: Backend, s: Store, q: Request): Store {
    match q
    case Lock(t, sku, quantity, sweptAt, expiresAt) =>
      Acquire(Sweep(s, sweptAt), Key(b, t, sku), sku, quantity, expiresAt)
    case Reclaim(now) => Sweep(s, now)
    case Settle(t, sku) => Consume(s, Key(b, t, sku))
  }

  ghost function AnswerTo(b: Backend, s: Store, q: Request): Answer {
    match q
    case Lock(_, sku, quantity, sweptAt, _) => Locked(AcquireResult(Sweep(s, sweptAt), sku, quantity))
    case Reclaim(now) => Reclaimed(|Expired(s.live, now)|, TotalUnits(Expired(s.live, now)))
    case Settle(t, sku) => Settled(Key(b, t, sku) in s.live)
  }

  /** Tokens are fresh and free of the separator, and a reservation is settled under the SKU it was taken for. */
  ghost predicate WellMannered(mem: Store, q: Request) {
    match q
    case Lock(t, _, _, _, _) => SEPARATOR !in t && t !in mem.live
    case Reclaim(_) => true
    case Settle(t, sku) => SEPARATOR !in t && (t in mem.live ==> mem.live[t].sku == sku)
  }

  ghost predicate Related(mem: Store, red: Store, offset: nat) {
    mem.stock == red.stock && mem.fence == red.fence + offset && Renames(mem.live, red.live)
  }

  /** The fencing counters start 1000 apart; every other part of an answer is the same. */
  ghost predicate SameAnswer(memory: Answer, redis: Answer, offset: nat) {
    match memory
    case Locked(r) =>
      redis == Locked(if r.success && r.fencingToken >= offset then r.(fencingToken := r.fencingToken - offset) else r)
    case _ => redis == memory
  }

  lemma SweepRelated(mem: Store, red: Store, offset: nat, now: int)
    requires Related(mem, red, offset)
    ensures Related(Sweep(mem, now), Sweep(red, now), offset)
    ensures |Expired(mem.live, now)| == |Expired(red.live, now)|
    ensures TotalUnits(Expired(mem.live, now)) == TotalUnits(Expired(red.live, now))
  {
    RenamesParts(mem.live, red.live, now);
    RenamedTotals(Expired(mem.live, now), Expired(red.live, now));
    RenamedSizes(Expired(mem.live, now), Expired(red.live, now));
    RenamedSkus(Expired(mem.live, now), Expired(red.live, now));
    SameSweptStock(mem, red, now);
  }

  lemma SameSweptStock(mem: Store, red: Store, now: int)
    requires mem.stock == red.stock
    requires Renames(Expired(mem.live, now), Expired(red.live, now))
    requires Skus(Expired(mem.live, now)) == Skus(Expired(red.live, now))
    ensures Sweep(mem, now).stock == Sweep(red, now).stock
  {
    forall sku | true ensures Units(Expired(mem.live, now), sku) == Units(Expired(red.live, now), sku) {
      RenamedUnits(Expired(mem.live, now), Expired(red.live, now), sku);
    }
  }

  lemma AcquireRelated(mem: Store, red: Store, offset: nat, t: string, sku: string, quantity: nat, expiresAt: int)
    requires Related(mem, red, offset) && SEPARATOR !in t && t !in mem.live
    ensures Related(Acquire(mem, t, sku, quantity, expiresAt),
                    Acquire(red, BuildReservationEntry(t, sku), sku, quantity, expiresAt), offset)
    ensures SameAnswer(Locked(AcquireResult(mem, sku, quantity)), Locked(AcquireResult(red, sku, quantity)), offset)
  {
    RenamesAdd(mem.live, red.live, t, Reservation(sku, quantity, expiresAt));
  }

  lemma SettleRelated(mem: Store, red: Store, offset: nat, t: string, sku: string)
    requires Related(mem, red, offset) && SEPARATOR !in t && (t in mem.live ==> mem.live[t].sku == sku)
    ensures Related(Consume(mem, t), Consume(red, BuildReservationEntry(t, sku)), offset)
    ensures t in mem.live <==> BuildReservationEntry(t, sku) in red.live
  {
    var e := BuildReservationEntry(t, sku);
    if t in mem.live {
      RenamesRemove(mem.live, red.live, t);
    } else {
      forall t' | t' in mem.live ensures BuildReservationEntry(t', mem.live[t'].sku) != e {
        EntriesDiffer(t', mem.live[t'].sku, t, sku);
      }
      assert mem.live - {t} == mem.live && red.live - {e} == red.live;
    }
  }

  lemma ServeRelated(mem: Store, red: Store, offset: nat, q: Request)
    requires Related(mem, red, offset) && WellMannered(mem, q)
    ensures Related(Serve(Memory, mem, q), Serve(Redis, red, q), offset)
    ensures SameAnswer(AnswerTo(Memory, mem, q), AnswerTo(Redis, red, q), offset)
  {
    match q
    case Lock(t, sku, quantity, sweptAt, expiresAt) =>
      SweepRelated(mem, red, offset, sweptAt);
      AcquireRelated(Sweep(mem, sweptAt), Sweep(red, sweptAt), offset, t, sku, quantity, expiresAt);
    case Reclaim(now) => SweepRelated(mem, red, offset, now);
    case Settle(t, sku) => SettleRelated(mem, red, offset, t, sku);
  }

  ghost function ServeAll(b: Backend, s: Store, requests: seq<Request>): Store
    decreases |requests|
  {
    if requests == [] then s else ServeAll(b, Serve(b, s, requests[0]), requests[1..])
  }

  ghost function Answers(b: Backend, s: Store, requests: seq<Request>): (r: seq<Answer>)
    ensures |r| == |requests|
    decreases |requests|
  {
    if requests == [] then [] else [AnswerTo(b, s, requests[0])] + Answers(b, Serve(b, s, requests[0]), requests[1..])
  }

  ghost predicate AllWellMannered(mem: Store, requests: seq<Request>)
    decreases |requests|
  {
    requests == [] ||
    (WellMannered(mem, requests[0]) && AllWellMannered(Serve(Memory, mem, requests[0]), requests[1..]))
  }

  /** Over every run of requests the two lockers give the same answers and end with the same stock. */
  lemma {:induction false} SameAnswers(mem: Store, red: Store, offset: nat, requests: seq<Request>)
    requires Related(mem, red, offset) && AllWellMannered(mem, requests)
    ensures Related(ServeAll(Memory, mem, requests), ServeAll(Redis, red, requests), offset)
    ensures forall i :: 0 <= i < |requests| ==>
      SameAnswer(Answers(Memory, mem, requests)[i], Answers(Redis, red, requests)[i], offset)
    decreases |requests|
  {
    if requests == [] {
    } else {
      ServeRelated(mem, red, offset, requests[0]);
      SameAnswers(Serve(Memory, mem, requests[0]), Serve(Redis, red, requests[0]), offset, requests[1..]);
    }
  }

  /** What the constructors leave: equal stock, nothing reserved, and the counters 1000 apart. */
  ghost predicate NewLockers(
    catalog: CatalogStore, memory: InMemoryAtomicLocker, redis: RedisKeys, stock: map<string, int>)
    reads catalog, memory, redis
  {
    && memory.View(catalog) == Store(stock, map[], INITIAL_FENCING_COUNTER)
    && redis.Valid() && redis.View() == Store(stock, map[], 0)
  }

  /** Two new lockers over the same stock answer alike for ever. */
  lemma SameAnswersFromStart(
    catalog: CatalogStore, memory: InMemoryAtomicLocker, redis: RedisKeys, stock: map<string, int>,
    requests: seq<Request>)
    requires NewLockers(catalog, memory, redis, stock) && AllWellMannered(memory.View(catalog), requests)
    ensures forall i :: 0 <= i < |requests| ==>
      SameAnswer(Answers(Memory, memory.View(catalog), requests)[i], Answers(Redis, redis.View(), requests)[i], 1000)
    ensures ServeAll(Memory, memory.View(catalog), requests).stock == ServeAll(Redis, redis.View(), requests).stock
  {
    SameAnswers(memory.View(catalog), redis.View(), INITIAL_FENCING_COUNTER, requests);
  }

  /** Settling under another SKU than the reserved one is where the two part: only memory removes it. */
  lemma SettleWrongSku(mem: Store, red: Store, offset: nat, t: string, sku: string)
    requires Related(mem, red, offset) && SEPARATOR !in t && t in mem.live
    ensures SameAnswer(AnswerTo(Memory, mem, Settle(t, sku)), AnswerTo(Redis, red, Settle(t, sku)), offset)
       <==> sku == mem.live[t].sku
  {
    if BuildReservationEntry(t, sku) in red.live {
      var t' :| t' in mem.live && BuildReservationEntry(t, sku) == BuildReservationEntry(t', mem.live[t'].sku);
      EntryInjective(t, sku, t', mem.live[t'].sku);
    }
  }
}
