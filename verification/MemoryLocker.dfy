/** The in-process twin of the Redis scripts: catalogStore.ts (stock only) and InMemoryAtomicLocker. */
module MemoryLocker {
  import opened Inventory

  const MILLIS_PER_SECOND := 1000
  const INITIAL_FENCING_COUNTER := 1000

  class CatalogStore {
    var stockMap: map<string, int>

    constructor (stock: map<string, int>)
      ensures stockMap == stock
    {
      stockMap := stock;
    }

    method GetStock(skuId: string) returns (stock: int)
      ensures stock == StockIn(stockMap, skuId)
    {
      stock := if skuId in stockMap then stockMap[skuId] else 0;
    }

    /** Stock never goes below zero: a larger withdrawal is clamped. */
    method UpdateStock(skuId: string, quantityDelta: int) returns (newStock: int)
      modifies this
      ensures newStock >= 0
      ensures var wanted := StockIn(old(stockMap), skuId) + quantityDelta; newStock == if wanted >= 0 then wanted else 0
      ensures stockMap == old(stockMap)[skuId := newStock]
    {
      var currentStock := GetStock(skuId);
      newStock := if currentStock + quantityDelta > 0 then currentStock + quantityDelta else 0;
      stockMap := stockMap[skuId := newStock];
    }
  }

  class InMemoryAtomicLocker {
    var fencingCounter: nat
    var reservations: map<string, Reservation>

    constructor ()
      ensures reservations == map[] && fencingCounter == 1000
    {
      fencingCounter, reservations := INITIAL_FENCING_COUNTER, map[];
    }

    ghost function View(catalog: CatalogStore): Store
      reads this, catalog
    {
      Store(catalog.stockMap, reservations, fencingCounter)
    }

    /** The body of the sweep loop; the credit is never clamped because stock is non-negative. */
    method ReleaseLock(catalog: CatalogStore, lockToken: string) returns (quantity: nat)
      requires lockToken in reservations && NonNegative(catalog.stockMap)
      modifies this, catalog
      ensures View(catalog) == ReleaseOne(old(View(catalog)), lockToken)
      ensures quantity == old(reservations)[lockToken].quantity
    {
      var reservation := reservations[lockToken];
      quantity := reservation.quantity;
      reservations := reservations - {lockToken};
      var stock := catalog.UpdateStock(reservation.sku, quantity);
    }

    /** The same turn, seen as progress of a sweep that began in `start`. */
    method SweepNext(
      catalog: CatalogStore, ghost start: Store, ghost nowMs: int, ghost pending: set<string>, lockToken: string)
      returns (quantity: nat)
      requires lockToken in pending && pending <= Expired(start.live, nowMs).Keys && NonNegative(start.stock)
      requires View(catalog) == HalfSwept(start, nowMs, pending)
      modifies this, catalog
      ensures View(catalog) == HalfSwept(start, nowMs, pending - {lockToken})
      ensures quantity == start.live[lockToken].quantity
    {
      SweepTurn(start, nowMs, pending, lockToken);
      HalfSweptNonNegative(start, nowMs, pending);
      quantity := ReleaseLock(catalog, lockToken);
    }

    /** The sweep loop over everything that had lapsed at `start`. */
    method ReleaseLapsed(catalog: CatalogStore, nowMs: int, lapsed: set<string>, ghost start: Store)
      returns (releasedLockCount: nat, restoredUnits: nat)
      requires View(catalog) == start && NonNegative(start.stock) && lapsed == Expired(start.live, nowMs).Keys
      modifies this, catalog
      ensures View(catalog) == HalfSwept(start, nowMs, {})
      ensures Counted(start, nowMs, {}, releasedLockCount, restoredUnits)
    {
      var pending := lapsed;
      SweepBegins(start, nowMs);
      releasedLockCount, restoredUnits := 0, 0;
      while pending != {}
        invariant pending <= Expired(start.live, nowMs).Keys
        invariant View(catalog) == HalfSwept(start, nowMs, pending)
        invariant Counted(start, nowMs, pending, releasedLockCount, restoredUnits)
        decreases pending
      {
        var lockToken :| lockToken in pending;
        CountTurn(start, nowMs, pending, lockToken, releasedLockCount, restoredUnits);
        var quantity := SweepNext(catalog, start, nowMs, pending, lockToken);
        releasedLockCount := releasedLockCount + 1;
        restoredUnits := restoredUnits + quantity;
        pending := pending - {lockToken};
      }
    }

    /** sweepExpiredInMemoryLocks: credits exactly the lapsed quantities and leaves none lapsed. */
    method SweepExpiredInMemoryLocks(catalog: CatalogStore, nowMs: int)
      returns (releasedLockCount: nat, restoredUnits: nat)
      requires NonNegative(catalog.stockMap)
      modifies this, catalog
      ensures View(catalog) == Sweep(old(View(catalog)), nowMs) && NonNegative(catalog.stockMap)
      ensures releasedLockCount == |Expired(old(View(catalog)).live, nowMs)|
      ensures restoredUnits == TotalUnits(Expired(old(View(catalog)).live, nowMs))
    {
      ghost var start := View(catalog);
      var lapsed := set t | t in reservations && !(reservations[t].expiresAt > nowMs);
      assert lapsed == Expired(start.live, nowMs).Keys;
      releasedLockCount, restoredUnits := ReleaseLapsed(catalog, nowMs, lapsed, start);
      HalfSweptNonNegative(start, nowMs, {});
      SweepEnds(start, nowMs, releasedLockCount, restoredUnits);
    }

    /** The clock is read twice: once for the sweep, once for the new expiry. */
    method ExecuteLock(
      catalog: CatalogStore, skuId: string, quantity: nat, lockTtlSeconds: int, lockToken: string,
      sweptAtMs: int, lockedAtMs: int)
      returns (r: LockResult)
      requires NonNegative(catalog.stockMap)
      modifies this, catalog
      ensures NonNegative(catalog.stockMap)
      ensures r == AcquireResult(Sweep(old(View(catalog)), sweptAtMs), skuId, quantity)
      ensures View(catalog) == Acquire(Sweep(old(View(catalog)), sweptAtMs), lockToken, skuId, quantity,
                                       lockedAtMs + lockTtlSeconds * 1000)
    {
      var _, _ := SweepExpiredInMemoryLocks(catalog, sweptAtMs);
      r := TakeLock(catalog, skuId, quantity, lockTtlSeconds, lockToken, lockedAtMs);
    }

    /** The part of executeLock after the sweep. */
    method TakeLock(
      catalog: CatalogStore, skuId: string, quantity: nat, lockTtlSeconds: int, lockToken: string, lockedAtMs: int)
      returns (r: LockResult)
      requires NonNegative(catalog.stockMap)
      modifies this, catalog
      ensures NonNegative(catalog.stockMap)
      ensures r == AcquireResult(old(View(catalog)), skuId, quantity)
      ensures View(catalog) ==
        Acquire(old(View(catalog)), lockToken, skuId, quantity, lockedAtMs + lockTtlSeconds * 1000)
    {
      var currentStock := catalog.GetStock(skuId);
      if currentStock < quantity {
        return LockResult(false, currentStock, 0);
      }
      var remainingStock := catalog.UpdateStock(skuId, 0 - quantity);
      fencingCounter := fencingCounter + 1;
      var expiresAtUnixMs := lockedAtMs + lockTtlSeconds * MILLIS_PER_SECOND;
      reservations := reservations[lockToken := Reservation(skuId, quantity, expiresAtUnixMs)];
      return LockResult(true, remainingStock, fencingCounter);
    }

    method ReclaimExpired(catalog: CatalogStore, nowMs: int) returns (releasedLockCount: nat, restoredUnits: nat)
      requires NonNegative(catalog.stockMap)
      modifies this, catalog
      ensures View(catalog) == Sweep(old(View(catalog)), nowMs) && NonNegative(catalog.stockMap)
      ensures releasedLockCount == |Expired(old(View(catalog)).live, nowMs)|
      ensures restoredUnits == TotalUnits(Expired(old(View(catalog)).live, nowMs))
    {
      releasedLockCount, restoredUnits := SweepExpiredInMemoryLocks(catalog, nowMs);
    }

    method ConsumeReservation(lockToken: string) returns (removed: bool)
      modifies this
      ensures removed <==> lockToken in old(reservations)
      ensures reservations == old(reservations) - {lockToken} && fencingCounter == old(fencingCounter)
    {
      removed := lockToken in reservations;
      reservations := reservations - {lockToken};
    }
  }

  /** A lock taken for n seconds is live for n * 1000 milliseconds and no longer. */
  lemma LockLives(s: Store, lockToken: string, sku: string, quantity: nat, seconds: nat, lockedAtMs: int, now: int)
    requires AcquireResult(s, sku, quantity).success
    ensures var s' := Acquire(s, lockToken, sku, quantity, lockedAtMs + seconds * 1000);
            lockToken in Sweep(s', now).live <==> now < lockedAtMs + seconds * 1000
  {
    SweepKeepsLater(Acquire(s, lockToken, sku, quantity, lockedAtMs + seconds * 1000), now);
  }
}
