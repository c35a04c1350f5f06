/** The three Lua scripts of redisLockManager.ts and lockExpirySweeper.ts over their Redis keys. */
module RedisInventory {
  import opened Inventory

  const SEPARATOR := '|'

  /** `<lockToken>|<skuId>` (inventoryKeys.ts). */
  function BuildReservationEntry(lockToken: string, skuId: string): string {
    lockToken + [SEPARATOR] + skuId
  }

  lemma EntryText(lockToken: string, skuId: string)
    ensures BuildReservationEntry(lockToken, skuId) == lockToken + "|" + skuId
  {
  }

  /** The sweeper's parse: everything after the first separator. */
  function SkuOf(entry: string): string
    requires SEPARATOR in entry
  {
    if entry[0] == SEPARATOR then entry[1..] else SkuOf(entry[1..])
  }

  lemma {:induction false} SkuIsShorter(entry: string)
    requires SEPARATOR in entry
    ensures |SkuOf(entry)| < |entry|
  {
    if entry[0] != SEPARATOR {
      SkuIsShorter(entry[1..]);
    }
  }

  /** The parse recovers the SKU exactly when the token contains no separator; the SKU may contain one. */
  lemma {:induction false} EntryParses(lockToken: string, skuId: string)
    ensures SEPARATOR in BuildReservationEntry(lockToken, skuId)
    ensures SkuOf(BuildReservationEntry(lockToken, skuId)) == skuId <==> SEPARATOR !in lockToken
  {
    var entry := BuildReservationEntry(lockToken, skuId);
    assert entry[|lockToken|] == SEPARATOR;
    if |lockToken| == 0 {
      assert entry[1..] == skuId;
    } else {
      var tail := BuildReservationEntry(lockToken[1..], skuId);
      assert entry[1..] == tail && entry[0] == lockToken[0];
      EntryParses(lockToken[1..], skuId);
      assert lockToken == [lockToken[0]] + lockToken[1..];
      assert |tail| >= |skuId| + 1;
    }
  }

  lemma {:induction false} EntryInjective(t: string, s: string, t': string, s': string)
    requires SEPARATOR !in t && SEPARATOR !in t'
    requires BuildReservationEntry(t, s) == BuildReservationEntry(t', s')
    ensures t == t' && s == s'
  {
    EntryParses(t, s);
    EntryParses(t', s');
    assert BuildReservationEntry(t, s)[..|t|] == t && BuildReservationEntry(t', s')[..|t'|] == t';
  }

  /** The sorted set of expiries and the hash of quantities hold the same well-formed entries. */
  ghost predicate EntriesFit(reservations: map<string, int>, quantities: map<string, nat>) {
    reservations.Keys == quantities.Keys &&
    forall e :: e in reservations ==> SEPARATOR in e
  }

  ghost function LiveEntries(reservations: map<string, int>, quantities: map<string, nat>): map<string, Reservation>
    requires EntriesFit(reservations, quantities)
  {
    map e | e in reservations :: Reservation(SkuOf(e), quantities[e], reservations[e])
  }

  lemma EntryAdded(reservations: map<string, int>, quantities: map<string, nat>, e: string, expiresAt: int, quantity: nat)
    requires EntriesFit(reservations, quantities) && SEPARATOR in e
    ensures EntriesFit(reservations[e := expiresAt], quantities[e := quantity])
    ensures LiveEntries(reservations[e := expiresAt], quantities[e := quantity])
         == LiveEntries(reservations, quantities)[e := Reservation(SkuOf(e), quantity, expiresAt)]
  {
  }

  lemma EntryRemoved(reservations: map<string, int>, quantities: map<string, nat>, e: string)
    requires EntriesFit(reservations, quantities)
    ensures EntriesFit(reservations - {e}, quantities - {e})
    ensures LiveEntries(reservations - {e}, quantities - {e}) == LiveEntries(reservations, quantities) - {e}
  {
  }

  class RedisKeys {
    var stock: map<string, int>
    var reservations: map<string, int>
    var quantities: map<string, nat>
    var fencing: nat

    constructor (stock: map<string, int>)
      ensures Valid() && View() == Store(stock, map[], 0)
    {
      this.stock, reservations, quantities, fencing := stock, map[], map[], 0;
    }

    /** A reserved SKU has a stock counter: acquiring creates it. */
    ghost predicate Valid()
      reads this
    {
      EntriesFit(reservations, quantities) && forall e :: e in reservations ==> SkuOf(e) in stock
    }

    ghost function View(): Store
      requires Valid()
      reads this
    {
      Store(stock, LiveEntries(reservations, quantities), fencing)
    }

    /** atomicLockLuaScript. */
    method AcquireScript(sku: string, quantity: nat, lockToken: string, expiresAtUnixMs: int) returns (r: LockResult)
      requires Valid() && SEPARATOR !in lockToken
      modifies this
      ensures Valid()
      ensures r == AcquireResult(old(View()), sku, quantity)
      ensures View() == Acquire(old(View()), BuildReservationEntry(lockToken, sku), sku, quantity, expiresAtUnixMs)
    {
      var currentStock := if sku in stock then stock[sku] else 0;
      if currentStock < quantity {
        return LockResult(false, currentStock, 0);
      }
      var entry := BuildReservationEntry(lockToken, sku);
      EntryParses(lockToken, sku);
      EntryAdded(reservations, quantities, entry, expiresAtUnixMs, quantity);
      stock := stock[sku := currentStock - quantity];
      fencing := fencing + 1;
      reservations := reservations[entry := expiresAtUnixMs];
      quantities := quantities[entry := quantity];
      return LockResult(true, stock[sku], fencing);
    }

    /** The body of the sweep loop: one lapsed entry is removed and its units, if any, go back to its SKU. */
    method ReleaseEntry(entry: string) returns (quantity: nat)
      requires Valid() && entry in View().live
      modifies this
      ensures Valid() && View() == ReleaseOne(old(View()), entry)
      ensures quantity == old(View().live[entry].quantity)
    {
      EntryRemoved(reservations, quantities, entry);
      var sku := SkuOf(entry);
      quantity := quantities[entry];
      reservations := reservations - {entry};
      if quantity > 0 {
        stock := stock[sku := StockIn(stock, sku) + quantity];
      }
      quantities := quantities - {entry};
    }

    /** sweepExpiredLocksLuaScript: one EVAL, so the whole loop is a single step for other clients. */
    method SweepScript(nowMs: int) returns (releasedCount: nat, restoredUnits: nat)
      requires Valid()
      modifies this
      ensures Valid() && View() == Sweep(old(View()), nowMs)
      ensures releasedCount == |Expired(old(View()).live, nowMs)|
      ensures restoredUnits == TotalUnits(Expired(old(View()).live, nowMs))
    {
      var pending := set e | e in reservations && reservations[e] <= nowMs;
      ghost var start := View();
      assert pending == Expired(start.live, nowMs).Keys;
      SweepBegins(start, nowMs);
      releasedCount, restoredUnits := 0, 0;
      while pending != {}
        invariant pending <= Expired(start.live, nowMs).Keys
        invariant Valid() && View() == HalfSwept(start, nowMs, pending)
        invariant Counted(start, nowMs, pending, releasedCount, restoredUnits)
        decreases pending
      {
        var entry :| entry in pending;
        SweepTurn(start, nowMs, pending, entry);
        CountTurn(start, nowMs, pending, entry, releasedCount, restoredUnits);
        var quantity := ReleaseEntry(entry);
        restoredUnits := restoredUnits + quantity;
        releasedCount := releasedCount + 1;
        pending := pending - {entry};
      }
      SweepEnds(start, nowMs, releasedCount, restoredUnits);
    }

    /** consumeReservationLuaScript. */
    method ConsumeScript(lockToken: string, sku: string) returns (removed: bool)
      requires Valid()
      modifies this
      ensures Valid()
      ensures removed <==> BuildReservationEntry(lockToken, sku) in old(View()).live
      ensures View() == Consume(old(View()), BuildReservationEntry(lockToken, sku))
    {
      var entry := BuildReservationEntry(lockToken, sku);
      removed := entry in reservations;
      EntryRemoved(reservations, quantities, entry);
      if removed {
        reservations := reservations - {entry};
        quantities := quantities - {entry};
      } else {
        assert View().live - {entry} == View().live;
      }
    }
  }
}
