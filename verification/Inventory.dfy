/** Time-bounded stock reservations: the machine that the Redis scripts and the in-memory locker implement. */
module Inventory {
  // A reservation is filed under a key: the Redis entry, or the bare lock token in memory.

  datatype Reservation = Reservation(sku: string, quantity: nat, expiresAt: int)

  datatype Store = Store(stock: map<string, int>, live: map<string, Reservation>, fence: nat)

  datatype LockResult = LockResult(success: bool, remainingStock: int, fencingToken: nat)

  function StockIn(stock: map<string, int>, sku: string): int {
    if sku in stock then stock[sku] else 0
  }

  function Credit(r: Reservation, sku: string): nat {
    if r.sku == sku then r.quantity else 0
  }

  /** Units of one SKU held by a set of reservations. */
  ghost function Units(m: map<string, Reservation>, sku: string): nat
    decreases |m|
  {
    if m == map[] then 0
    else
      var k :| k in m;
      Credit(m[k], sku) + Units(m - {k}, sku)
  }

  lemma {:induction false} UnitsRemove(m: map<string, Reservation>, k: string, sku: string)
    requires k in m
    ensures Units(m, sku) == Credit(m[k], sku) + Units(m - {k}, sku)
    decreases |m|
  {
    var j :| j in m && Units(m, sku) == Credit(m[j], sku) + Units(m - {j}, sku);
    if j != k {
      UnitsRemove(m - {j}, k, sku);
      UnitsRemove(m - {k}, j, sku);
      assert m - {j} - {k} == m - {k} - {j};
    }
  }

  lemma UnitsAdd(m: map<string, Reservation>, k: string, r: Reservation, sku: string)
    requires k !in m
    ensures Units(m[k := r], sku) == Units(m, sku) + Credit(r, sku)
  {
    UnitsRemove(m[k := r], k, sku);
    assert m[k := r] - {k} == m;
  }

  function Expired(live: map<string, Reservation>, now: int): map<string, Reservation> {
    map k | k in live && live[k].expiresAt <= now :: live[k]
  }

  function Kept(live: map<string, Reservation>, now: int): map<string, Reservation> {
    map k | k in live && live[k].expiresAt > now :: live[k]
  }

  lemma PartsWithout(live: map<string, Reservation>, now: int, k: string)
    requires k in live
    ensures Expired(live - {k}, now) == Expired(live, now) - {k}
    ensures Kept(live - {k}, now) == Kept(live, now) - {k}
    ensures live[k].expiresAt <= now ==> k in Expired(live, now) && Kept(live, now) - {k} == Kept(live, now)
    ensures live[k].expiresAt > now ==> k in Kept(live, now) && Expired(live, now) - {k} == Expired(live, now)
  {
  }

  lemma {:induction false} UnitsSplit(live: map<string, Reservation>, now: int, sku: string)
    ensures Units(live, sku) == Units(Expired(live, now), sku) + Units(Kept(live, now), sku)
    decreases |live|
  {
    if live == map[] {
      assert Expired(live, now) == map[] && Kept(live, now) == map[];
    } else {
      var k :| k in live;
      UnitsRemove(live, k, sku);
      UnitsSplit(live - {k}, now, sku);
      PartsWithout(live, now, k);
      if live[k].expiresAt <= now {
        UnitsRemove(Expired(live, now), k, sku);
      } else {
        UnitsRemove(Kept(live, now), k, sku);
      }
    }
  }

  function Skus(m: map<string, Reservation>): set<string> {
    set k | k in m :: m[k].sku
  }

  /** Units held by a set of reservations, whatever their SKU. */
  ghost function TotalUnits(m: map<string, Reservation>): nat
    decreases |m|
  {
    if m == map[] then 0
    else
      var k :| k in m;
      m[k].quantity + TotalUnits(m - {k})
  }

  lemma {:induction false} TotalRemove(m: map<string, Reservation>, k: string)
    requires k in m
    ensures TotalUnits(m) == m[k].quantity + TotalUnits(m - {k})
    decreases |m|
  {
    var j :| j in m && TotalUnits(m) == m[j].quantity + TotalUnits(m - {j});
    if j != k {
      TotalRemove(m - {j}, k);
      TotalRemove(m - {k}, j);
      assert m - {j} - {k} == m - {k} - {j};
    }
  }

  lemma TotalAdd(m: map<string, Reservation>, k: string, r: Reservation)
    requires k !in m
    ensures TotalUnits(m[k := r]) == TotalUnits(m) + r.quantity
  {
    TotalRemove(m[k := r], k);
    assert m[k := r] - {k} == m;
  }

  // ---------------------------------------------------------------- the three operations

  function Acquire(s: Store, key: string, sku: string, quantity: nat, expiresAt: int): Store {
    if StockIn(s.stock, sku) < quantity then s
    else Store(s.stock[sku := StockIn(s.stock, sku) - quantity],
               s.live[key := Reservation(sku, quantity, expiresAt)],
               s.fence + 1)
  }

  function AcquireResult(s: Store, sku: string, quantity: nat): LockResult {
    if StockIn(s.stock, sku) < quantity then LockResult(false, StockIn(s.stock, sku), 0)
    else LockResult(true, StockIn(s.stock, sku) - quantity, s.fence + 1)
  }

  /** The stock after the units of some reservations have been credited. */
  ghost function StockAfter(stock: map<string, int>, released: map<string, Reservation>): map<string, int> {
    map sku | sku in stock.Keys + Skus(released) :: StockIn(stock, sku) + Units(released, sku)
  }

  /** Credits every lapsed reservation back to its SKU and drops it. */
  ghost function Sweep(s: Store, now: int): Store {
    var lapsed := Expired(s.live, now);
    s.(stock := StockAfter(s.stock, lapsed), live := Kept(s.live, now))
  }

  function Consume(s: Store, key: string): Store {
    s.(live := s.live - {key})
  }

  lemma UnitsOfAbsentSku(m: map<string, Reservation>, sku: string)
    requires sku !in Skus(m)
    ensures Units(m, sku) == 0
    decreases |m|
  {
    if m != map[] {
      var k :| k in m;
      UnitsRemove(m, k, sku);
      assert Skus(m - {k}) <= Skus(m);
      assert m[k].sku in Skus(m);
      UnitsOfAbsentSku(m - {k}, sku);
    }
  }

  // ---------------------------------------------------------------- sweeping one reservation at a time

  ghost function PartSwept(start: Store, released: map<string, Reservation>): Store {
    Store(StockAfter(start.stock, released), start.live - released.Keys, start.fence)
  }

  function ReleaseOne(s: Store, k: string): Store
    requires k in s.live
  {
    var r := s.live[k];
    Store(s.stock[r.sku := StockIn(s.stock, r.sku) + r.quantity], s.live - {k}, s.fence)
  }

  lemma SkusAdd(m: map<string, Reservation>, k: string, r: Reservation)
    requires k !in m
    ensures Skus(m[k := r]) == Skus(m) + {r.sku}
  {
    var m' := m[k := r];
    assert m'[k].sku in Skus(m');
    forall sku | sku in Skus(m) ensures sku in Skus(m') {
      var j :| j in m && m[j].sku == sku;
      assert m'[j].sku == sku;
    }
  }

  lemma StockAfterIn(stock: map<string, int>, released: map<string, Reservation>, sku: string)
    ensures StockIn(StockAfter(stock, released), sku) == StockIn(stock, sku) + Units(released, sku)
  {
    if sku !in Skus(released) {
      UnitsOfAbsentSku(released, sku);
    }
  }

  lemma StockAfterOne(stock: map<string, int>, released: map<string, Reservation>, k: string, r: Reservation)
    requires k !in released
    ensures var before := StockAfter(stock, released);
            StockAfter(stock, released[k := r]) == before[r.sku := StockIn(before, r.sku) + r.quantity]
  {
    var before, after := StockAfter(stock, released), StockAfter(stock, released[k := r]);
    var credited := before[r.sku := StockIn(before, r.sku) + r.quantity];
    SkusAdd(released, k, r);
    assert after.Keys == credited.Keys;
    forall sku | sku in after ensures after[sku] == credited[sku] {
      UnitsAdd(released, k, r, sku);
      StockAfterIn(stock, released, sku);
    }
  }

  lemma LiveAfterOne(live: map<string, Reservation>, released: map<string, Reservation>, k: string)
    requires k in live && k !in released
    ensures var left := live - released.Keys;
            k in left && left[k] == live[k] && live - released[k := live[k]].Keys == left - {k}
  {
    assert released[k := live[k]].Keys == released.Keys + {k};
  }

  lemma SizeAdd(m: map<string, Reservation>, k: string, r: Reservation)
    requires k !in m
    ensures |m[k := r]| == |m| + 1
  {
    assert m[k := r].Keys == m.Keys + {k};
  }

  /** Releasing one more reservation, wherever a sweep stands. */
  lemma PartSweptOne(start: Store, released: map<string, Reservation>, k: string)
    requires k in start.live && k !in released
    ensures var s := PartSwept(start, released);
            && k in s.live && s.live[k] == start.live[k]
            && PartSwept(start, released[k := start.live[k]]) == ReleaseOne(s, k)
  {
    StockAfterOne(start.stock, released, k, start.live[k]);
    LiveAfterOne(start.live, released, k);
  }

  /** The lapsed reservations that a sweep has already released. */
  function Released(start: Store, now: int, pending: set<string>): map<string, Reservation> {
    map k | k in Expired(start.live, now) && k !in pending :: start.live[k]
  }

  /** Where a sweep stands when `pending` is still to be released. */
  ghost function HalfSwept(start: Store, now: int, pending: set<string>): Store {
    PartSwept(start, Released(start, now, pending))
  }

  ghost predicate Counted(start: Store, now: int, pending: set<string>, count: nat, units: nat) {
    count == |Released(start, now, pending)| && units == TotalUnits(Released(start, now, pending))
  }

  lemma ReleasedGrows(start: Store, now: int, pending: set<string>, k: string)
    requires k in pending && pending <= Expired(start.live, now).Keys
    ensures k in start.live && k !in Released(start, now, pending)
    ensures Released(start, now, pending - {k}) == Released(start, now, pending)[k := start.live[k]]
  {
  }

  lemma NothingReleased(start: Store)
    ensures PartSwept(start, map[]) == start
  {
    var none: map<string, Reservation> := map[];
    assert forall sku :: Units(none, sku) == 0;
    assert StockAfter(start.stock, none) == start.stock;
  }

  lemma SweepBegins(start: Store, now: int)
    ensures HalfSwept(start, now, Expired(start.live, now).Keys) == start
    ensures Counted(start, now, Expired(start.live, now).Keys, 0, 0)
  {
    assert Released(start, now, Expired(start.live, now).Keys) == map[];
    NothingReleased(start);
  }

  lemma HalfSweptNonNegative(start: Store, now: int, pending: set<string>)
    requires NonNegative(start.stock)
    ensures NonNegative(HalfSwept(start, now, pending).stock)
  {
  }

  lemma SweepTurn(start: Store, now: int, pending: set<string>, k: string)
    requires k in pending && pending <= Expired(start.live, now).Keys
    ensures var s := HalfSwept(start, now, pending);
            && k in s.live && s.live[k] == start.live[k]
            && HalfSwept(start, now, pending - {k}) == ReleaseOne(s, k)
  {
    ReleasedGrows(start, now, pending, k);
    PartSweptOne(start, Released(start, now, pending), k);
  }

  lemma CountTurn(start: Store, now: int, pending: set<string>, k: string, count: nat, units: nat)
    requires k in pending && pending <= Expired(start.live, now).Keys && k in start.live
    requires Counted(start, now, pending, count, units)
    ensures Counted(start, now, pending - {k}, count + 1, units + start.live[k].quantity)
  {
    ReleasedGrows(start, now, pending, k);
    SizeAdd(Released(start, now, pending), k, start.live[k]);
    TotalAdd(Released(start, now, pending), k, start.live[k]);
  }

  lemma SweepEnds(start: Store, now: int, count: nat, units: nat)
    requires Counted(start, now, {}, count, units)
    ensures HalfSwept(start, now, {}) == Sweep(start, now)
    ensures count == |Expired(start.live, now)| && units == TotalUnits(Expired(start.live, now))
  {
    assert Released(start, now, {}) == Expired(start.live, now);
    assert start.live - Expired(start.live, now).Keys == Kept(start.live, now);
  }

  // ---------------------------------------------------------------- runs of many clients

  datatype Action =
    | DoAcquire(key: string, sku: string, quantity: nat, expiresAt: int)
    | DoSweep(now: int)
    | DoConsume(key: string)

  /** The store with the history a theorem needs: what was granted, consumed and restored so far. */
  datatype World = World(
    store: Store,
    granted: map<string, Reservation>,
    fences: seq<nat>,
    consumed: map<string, Reservation>,
    consumptions: multiset<string>,
    restored: map<string, Reservation>,
    restorations: multiset<string>)

  function Begin(stock: map<string, int>, fence: nat): World {
    World(Store(stock, map[], fence), map[], [], map[], multiset{}, map[], multiset{})
  }

  /** Lock tokens are drawn fresh. */
  predicate Allowed(w: World, a: Action) {
    a.DoAcquire? ==> a.key !in w.granted
  }

  ghost function Next(w: World, a: Action): World {
    match a
    case DoAcquire(key, sku, quantity, expiresAt) =>
      var w' := w.(store := Acquire(w.store, key, sku, quantity, expiresAt));
      if AcquireResult(w.store, sku, quantity).success then
        w'.(granted := w.granted[key := Reservation(sku, quantity, expiresAt)],
            fences := w.fences + [AcquireResult(w.store, sku, quantity).fencingToken])
      else w'
    case DoSweep(now) =>
      var lapsed := Expired(w.store.live, now);
      w.(store := Sweep(w.store, now), restored := w.restored + lapsed,
         restorations := w.restorations + multiset(lapsed.Keys))
    case DoConsume(key) =>
      if key in w.store.live then
        w.(store := Consume(w.store, key), consumed := w.consumed[key := w.store.live[key]],
           consumptions := w.consumptions + multiset{key})
      else w.(store := Consume(w.store, key))
  }

  ghost function Run(w: World, actions: seq<Action>): World {
    if |actions| == 0 then w else Next(Run(w, actions[..|actions| - 1]), actions[|actions| - 1])
  }

  ghost predicate AllAllowed(w: World, actions: seq<Action>) {
    |actions| == 0 ||
    (AllAllowed(w, actions[..|actions| - 1]) && Allowed(Run(w, actions[..|actions| - 1]), actions[|actions| - 1]))
  }

  // ---------------------------------------------------------------- invariant

  /** Each granted reservation is live, restored or consumed, and only one of these. */
  ghost predicate FatesApart(w: World) {
    && w.store.live.Keys + w.restored.Keys + w.consumed.Keys == w.granted.Keys
    && w.store.live.Keys !! w.restored.Keys && w.store.live.Keys !! w.consumed.Keys
    && w.restored.Keys !! w.consumed.Keys
  }

  ghost predicate FatesUnchanged(w: World) {
    && (forall k :: k in w.store.live ==> k in w.granted && w.store.live[k] == w.granted[k])
    && (forall k :: k in w.restored ==> k in w.granted && w.restored[k] == w.granted[k])
    && (forall k :: k in w.consumed ==> k in w.granted && w.consumed[k] == w.granted[k])
  }

  ghost predicate FatesCounted(w: World) {
    && (forall k :: w.restorations[k] == (if k in w.restored then 1 else 0))
    && (forall k :: w.consumptions[k] == (if k in w.consumed then 1 else 0))
  }

  ghost predicate FatesFit(w: World) {
    FatesApart(w) && FatesUnchanged(w) && FatesCounted(w)
  }

  ghost predicate UnitsConserved(w: World, initial: map<string, int>) {
    forall sku :: StockIn(w.store.stock, sku) + Units(w.store.live, sku) + Units(w.consumed, sku) == StockIn(initial, sku)
  }

  predicate NonNegative(stock: map<string, int>) {
    forall sku :: sku in stock ==> stock[sku] >= 0
  }

  predicate FencesFit(w: World, first: nat) {
    && w.store.fence == first + |w.fences|
    && forall i :: 0 <= i < |w.fences| ==> w.fences[i] == first + i + 1
  }

  ghost predicate Invariant(w: World, initial: map<string, int>, first: nat) {
    FatesFit(w) && UnitsConserved(w, initial) && NonNegative(w.store.stock) && FencesFit(w, first)
  }

  lemma AcquireUnits(w: World, a: Action, initial: map<string, int>)
    requires a.DoAcquire? && FatesFit(w) && UnitsConserved(w, initial) && Allowed(w, a)
    ensures UnitsConserved(Next(w, a), initial)
  {
    if AcquireResult(w.store, a.sku, a.quantity).success {
      assert a.key !in w.store.live;
      var w' := Next(w, a);
      forall sku | true ensures StockIn(w'.store.stock, sku) + Units(w'.store.live, sku)
                             == StockIn(w.store.stock, sku) + Units(w.store.live, sku)
      {
        UnitsAdd(w.store.live, a.key, Reservation(a.sku, a.quantity, a.expiresAt), sku);
      }
    }
  }

  lemma SweepUnits(w: World, now: int, initial: map<string, int>)
    requires UnitsConserved(w, initial)
    ensures UnitsConserved(Next(w, DoSweep(now)), initial)
  {
    forall sku | true
      ensures var w' := Next(w, DoSweep(now));
        StockIn(w'.store.stock, sku) + Units(w'.store.live, sku) + Units(w'.consumed, sku) == StockIn(initial, sku)
    {
      StockAfterIn(w.store.stock, Expired(w.store.live, now), sku);
      UnitsSplit(w.store.live, now, sku);
    }
  }

  lemma ConsumeUnits(w: World, key: string, initial: map<string, int>)
    requires FatesFit(w) && UnitsConserved(w, initial)
    ensures UnitsConserved(Next(w, DoConsume(key)), initial)
  {
    if key in w.store.live {
      forall sku | true
        ensures var w' := Next(w, DoConsume(key));
          StockIn(w'.store.stock, sku) + Units(w'.store.live, sku) + Units(w'.consumed, sku) == StockIn(initial, sku)
      {
        UnitsRemove(w.store.live, key, sku);
        UnitsAdd(w.consumed, key, w.store.live[key], sku);
      }
    } else {
      assert w.store.live - {key} == w.store.live;
    }
  }

  lemma FatesAcquire(w: World, a: Action)
    requires FatesFit(w) && Allowed(w, a) && a.DoAcquire?
    ensures FatesFit(Next(w, a))
  {
  }

  lemma SweepApart(w: World, now: int)
    requires FatesApart(w)
    ensures FatesApart(Next(w, DoSweep(now)))
  {
    var lapsed, kept := Expired(w.store.live, now), Kept(w.store.live, now);
    assert w.store.live.Keys == lapsed.Keys + kept.Keys && lapsed.Keys !! kept.Keys;
    assert (w.restored + lapsed).Keys == w.restored.Keys + lapsed.Keys;
  }

  lemma SweepUnchanged(w: World, now: int)
    requires FatesUnchanged(w)
    ensures FatesUnchanged(Next(w, DoSweep(now)))
  {
  }

  lemma SweepCounted(w: World, now: int)
    requires FatesApart(w) && FatesCounted(w)
    ensures FatesCounted(Next(w, DoSweep(now)))
  {
    var lapsed := Expired(w.store.live, now);
    forall k | true
      ensures (w.restorations + multiset(lapsed.Keys))[k] == (if k in w.restored + lapsed then 1 else 0)
    {
      assert multiset(lapsed.Keys)[k] == (if k in lapsed.Keys then 1 else 0);
    }
  }

  lemma ConsumeApart(w: World, key: string)
    requires FatesApart(w) && key in w.store.live
    ensures FatesApart(Next(w, DoConsume(key)))
  {
    var w' := Next(w, DoConsume(key));
    assert w'.store.live.Keys == w.store.live.Keys - {key} && w'.consumed.Keys == w.consumed.Keys + {key};
  }

  lemma ConsumeCounted(w: World, key: string)
    requires FatesApart(w) && FatesCounted(w) && key in w.store.live
    ensures FatesCounted(Next(w, DoConsume(key)))
  {
  }

  lemma ConsumeUnchanged(w: World, key: string)
    requires FatesUnchanged(w) && key in w.store.live
    ensures FatesUnchanged(Next(w, DoConsume(key)))
  {
  }

  lemma FatesConsume(w: World, key: string)
    requires FatesFit(w)
    ensures FatesFit(Next(w, DoConsume(key)))
  {
    if key in w.store.live {
      ConsumeApart(w, key);
      ConsumeCounted(w, key);
      ConsumeUnchanged(w, key);
    } else {
      assert Next(w, DoConsume(key)) == w by { assert w.store.live - {key} == w.store.live; }
    }
  }

  lemma FatesStep(w: World, a: Action)
    requires FatesFit(w) && Allowed(w, a)
    ensures FatesFit(Next(w, a))
  {
    match a
    case DoAcquire(_, _, _, _) => FatesAcquire(w, a);
    case DoSweep(now) => SweepApart(w, now); SweepUnchanged(w, now); SweepCounted(w, now);
    case DoConsume(key) => FatesConsume(w, key);
  }

  lemma SweepNonNegative(s: Store, now: int)
    requires NonNegative(s.stock)
    ensures NonNegative(Sweep(s, now).stock)
  {
  }

  lemma StockStep(w: World, a: Action, first: nat)
    requires NonNegative(w.store.stock) && FencesFit(w, first)
    ensures NonNegative(Next(w, a).store.stock) && FencesFit(Next(w, a), first)
  {
    if a.DoSweep? {
      SweepNonNegative(w.store, a.now);
    }
  }

  lemma UnitsStep(w: World, a: Action, initial: map<string, int>)
    requires FatesFit(w) && UnitsConserved(w, initial) && Allowed(w, a)
    ensures UnitsConserved(Next(w, a), initial)
  {
    match a
    case DoAcquire(_, _, _, _) => AcquireUnits(w, a, initial);
    case DoSweep(now) => SweepUnits(w, now, initial);
    case DoConsume(key) => ConsumeUnits(w, key, initial);
  }

  lemma StepKeeps(w: World, a: Action, initial: map<string, int>, first: nat)
    requires Invariant(w, initial, first) && Allowed(w, a)
    ensures Invariant(Next(w, a), initial, first)
  {
    FatesStep(w, a);
    UnitsStep(w, a, initial);
    StockStep(w, a, first);
  }

  lemma {:induction false} RunKeeps(stock: map<string, int>, first: nat, actions: seq<Action>)
    requires NonNegative(stock) && AllAllowed(Begin(stock, first), actions)
    ensures Invariant(Run(Begin(stock, first), actions), stock, first)
  {
    if |actions| == 0 {
    } else {
      var n := |actions| - 1;
      RunKeeps(stock, first, actions[..n]);
      StepKeeps(Run(Begin(stock, first), actions[..n]), actions[n], stock, first);
    }
  }

  /**
   * In every interleaving of acquire, sweep and consume: stock stays non-negative; stock, live units and
   * consumed units add up to the initial stock; every granted reservation is live, or was restored once,
   * or was consumed once, and only one of these; fencing tokens strictly increase.
   */
  lemma StockConserved(stock: map<string, int>, first: nat, actions: seq<Action>)
    requires NonNegative(stock) && AllAllowed(Begin(stock, first), actions)
    ensures var w := Run(Begin(stock, first), actions);
            && NonNegative(w.store.stock)
            && (forall sku :: StockIn(w.store.stock, sku) + Units(w.store.live, sku) + Units(w.consumed, sku)
                              == StockIn(stock, sku))
            && (forall k :: k in w.granted ==>
                  (if k in w.store.live then 1 else 0) + w.restorations[k] + w.consumptions[k] == 1)
            && (forall k :: k !in w.granted ==> w.restorations[k] == w.consumptions[k] == 0 && k !in w.store.live)
            && (forall i, j :: 0 <= i < j < |w.fences| ==> w.fences[i] < w.fences[j])
  {
    RunKeeps(stock, first, actions);
  }

  lemma NothingLapsed(s: Store, now: int)
    requires Expired(s.live, now) == map[]
    ensures Sweep(s, now) == s
  {
    assert Kept(s.live, now) == s.live by {
      forall k | k in s.live ensures s.live[k].expiresAt > now {
        assert s.live[k].expiresAt <= now ==> k in Expired(s.live, now);
      }
    }
    var credited: map<string, Reservation> := map[];
    assert forall sku :: Units(credited, sku) == 0;
  }

  /** A second sweep at the same instant finds nothing. */
  lemma SweepTwice(s: Store, now: int)
    ensures Kept(Kept(s.live, now), now) == Kept(s.live, now)
    ensures Expired(Sweep(s, now).live, now) == map[]
    ensures Sweep(Sweep(s, now), now) == Sweep(s, now)
  {
    var s' := Sweep(s, now);
    assert Expired(s'.live, now) == map[];
    NothingLapsed(s', now);
  }

  /** Once lapsed reservations are reclaimed, a lock at that instant is granted up to the stock read. */
  lemma ReadThenLock(s: Store, now: int, sku: string, quantity: nat)
    ensures var read := StockIn(Sweep(s, now).stock, sku);
            AcquireResult(Sweep(Sweep(s, now), now), sku, quantity).success <==> quantity <= read
  {
    SweepTwice(s, now);
  }

  // ---------------------------------------------------------------- the operations in plain numbers

  /** A lock is granted exactly up to the stock; it takes its units, files its reservation and counts one fence. */
  lemma AcquireInNumbers(s: Store, key: string, sku: string, quantity: nat, expiresAt: int)
    ensures var have := if sku in s.stock then s.stock[sku] else 0;
            var r, s' := AcquireResult(s, sku, quantity), Acquire(s, key, sku, quantity, expiresAt);
            if quantity <= have
            then r == LockResult(true, have - quantity, s.fence + 1) && s'.stock == s.stock[sku := have - quantity] &&
                 s'.live == s.live[key := Reservation(sku, quantity, expiresAt)] && s'.fence == s.fence + 1
            else r == LockResult(false, have, 0) && s' == s
  {
  }

  /** A sweep keeps exactly the reservations whose expiry is still to come. */
  lemma SweepKeepsLater(s: Store, now: int)
    ensures forall k :: k in Sweep(s, now).live <==> k in s.live && now < s.live[k].expiresAt
    ensures forall k :: k in Sweep(s, now).live ==> Sweep(s, now).live[k] == s.live[k]
    ensures Sweep(s, now).fence == s.fence
  {
  }
}
