/**
 * The shop service (ShopServiceImpl): the shop lookup that composes the
 * engine's two reads, its own mutex and logical-expiry variants, the
 * envelope warm-up `saveShop2Redis`, and invalidate-on-update.
 */
module Shops {
  import opened Wrappers
  import opened KeyValue
  import opened Keys
  import Cache

  /** A shop row; the columns the cache never looks at are folded into `name`. */
  datatype Shop = Shop(id: Option<int>, name: string)

  /** The RedisConstants the service uses (TTLs in minutes). */
  datatype ShopConstants = ShopConstants(cacheShopKey: string, cacheShopTtl: Positive,
                                         cacheNullTtl: Positive, lockShopKey: string)

  /** The shop table, by primary key. */
  type Table = map<int, Shop>

  /** `getById`. */
  function RowById(rows: Table, id: int): (r: Option<Shop>)
    ensures r.Some? <==> id in rows
    ensures r.Some? ==> r.value == rows[id]
  {
    if id in rows then Some(rows[id]) else None
  }

  /** `this::getById` as the loader handed to the engine. */
  function Loader(rows: Table): int -> Option<Shop> {
    id => RowById(rows, id)
  }

  /** The first read of `queryWithMutex` falls through to the lock: a miss, or blank text other than "". */
  predicate EntersTry(s: Store<Shop>, key: string, now: int) {
    var json := Read(s, key, now);
    IsBlank(json) && !IsSentinel(json)
  }

  /**
   * The locked part of `queryWithMutex`, after `getById` returned `found`
   * and the 200 ms pause: the double-check re-read at `now` wins over the
   * database; only a blank, non-"" re-read writes, "" with the null TTL for
   * a missing shop, the shop's JSON with the shop TTL otherwise.
   */
  function Rebuilt(s: Store<Shop>, found: Option<Shop>, k: ShopConstants, key: string, now: int)
    : (o: Cache.Step<Shop, Option<Shop>>)
    ensures o.consulted && o.result != Err(RetriesExhausted)
    ensures var json := Read(s, key, now);
      && (json.Mistyped? ==> o.result == Err(WrongType) && o.store == s)
      && (json.Bulk? && !IsBlank(json) ==> o.result == DecodeBean(json.v) && o.store == s)
      && (IsSentinel(json) ==> o.result == Ok(None) && o.store == s)
      && (EntersTry(s, key, now) && found.None? ==>
            o.result == Ok(None) && o.store == Put(s, key, Text(""), Some(now + Millis(k.cacheNullTtl, Minutes))))
      && (EntersTry(s, key, now) && found.Some? ==>
            o.result == Ok(found) && o.store == Put(s, key, Json(found.value), Some(now + Millis(k.cacheShopTtl, Minutes))))
  {
    var json := Read(s, key, now);
    if json.Mistyped? then Cache.Step(Err(WrongType), s, true)
    else if !IsBlank(json) then Cache.Step(DecodeBean(json.v), s, true)
    else if IsSentinel(json) then Cache.Step(Ok(None), s, true)
    else if found.None? then Cache.Step(Ok(None), Put(s, key, Text(""), Some(now + Millis(k.cacheNullTtl, Minutes))), true)
    else Cache.Step(Ok(found), Put(s, key, Json(found.value), Some(now + Millis(k.cacheShopTtl, Minutes))), true)
  }

  /**
   * `queryWithMutex`. Each failed lock attempt retries 50 ms later; `fuel`
   * bounds the retries the source makes without limit. The `finally` deletes
   * the single global lock key on every exit from the `try`, the retry path
   * included. Results:
   *  - a hit or a cached "" answers without touching lock, database or store;
   *  - otherwise the lock key is gone afterwards;
   *  - no key other than the shop's and the lock's ever changes;
   *  - a returned shop is what the cache holds afterwards, and a returned
   *    null is matched by a cached "" (when the lock key is not the shop's);
   *  - a miss that gets past the retries returns `getById`'s row;
   *  - with the lock free, a miss caches that row as JSON for the shop TTL,
   *    or "" for the null TTL when there is none, after the 200 ms pause.
   */
  function MutexQuery(s: Store<Shop>, rows: Table, k: ShopConstants, id: int, now: int, fuel: nat)
    : (o: Cache.Step<Shop, Option<Shop>>)
    ensures var key := CacheKey(k.cacheShopKey, id);
      var json := Read(s, key, now);
      && (json.Mistyped? ==> o.result == Err(WrongType))
      && (json.Bulk? && !IsBlank(json) ==> o.result == DecodeBean(json.v))
      && (IsSentinel(json) ==> o.result == Ok(None))
      && (EntersTry(s, key, now) && key != k.lockShopKey && o.result != Err(RetriesExhausted) ==>
            o.result == Ok(RowById(rows, id)))
      && (EntersTry(s, key, now) && !Visible(s, k.lockShopKey, now) && key != k.lockShopKey ==>
            && o.consulted && key in o.store
            && o.store[key] == (if id in rows then Entry(Json(rows[id]), Some(now + 200 + Millis(k.cacheShopTtl, Minutes)))
                                else Entry(Text(""), Some(now + 200 + Millis(k.cacheNullTtl, Minutes)))))
    ensures var key := CacheKey(k.cacheShopKey, id);
      && (!EntersTry(s, key, now) ==> o.store == s && !o.consulted)
      && (EntersTry(s, key, now) ==> k.lockShopKey !in o.store)
      && SameExcept(s, o.store, {key, k.lockShopKey})
      && (key != k.lockShopKey && o.result.Ok? && o.result.value.Some? ==>
            key in o.store && o.store[key].value == Json(o.result.value.value))
      && (key != k.lockShopKey && o.result == Ok(None) ==>
            key in o.store && o.store[key].value == Text(""))
    decreases fuel
  {
    var key := CacheKey(k.cacheShopKey, id);
    var json := Read(s, key, now);
    if json.Mistyped? then Cache.Step(Err(WrongType), s, false)
    else if !IsBlank(json) then Cache.Step(DecodeBean(json.v), s, false)
    else if IsSentinel(json) then Cache.Step(Ok(None), s, false)
    else
      var attempt :=
        if Visible(s, k.lockShopKey, now) then
          if fuel == 0 then Cache.Step(Err(RetriesExhausted), s, false)
          else MutexQuery(s, rows, k, id, now + 50, fuel - 1)
        else Rebuilt(TryLock(s, k.lockShopKey, now).1, RowById(rows, id), k, key, now + 200);
      attempt.(store := attempt.store - {k.lockShopKey})
  }

  /**
   * The retry loop ends once a stale lock expires: with enough retries to
   * outlast the lock's deadline, `queryWithMutex` never runs out of retries.
   */
  lemma {:induction false} MutexRetriesEnd(s: Store<Shop>, rows: Table, k: ShopConstants, id: int, now: int, fuel: nat)
    requires k.lockShopKey in s ==> s[k.lockShopKey].deadline.Some? && s[k.lockShopKey].deadline.value <= now + 50 * fuel
    ensures MutexQuery(s, rows, k, id, now, fuel).result != Err(RetriesExhausted)
    decreases fuel
  {
    if fuel > 0 {
      MutexRetriesEnd(s, rows, k, id, now + 50, fuel - 1);
    }
  }

  /** After a call returns a shop, a later call while the entry lives hits the cache: no lock, no database. */
  lemma MutexSecondCallHits(s: Store<Shop>, rows: Table, k: ShopConstants, id: int, now: int, fuel: nat,
                            later: int, fuel': nat)
    requires CacheKey(k.cacheShopKey, id) != k.lockShopKey
    requires MutexQuery(s, rows, k, id, now, fuel).result.Ok?
    requires MutexQuery(s, rows, k, id, now, fuel).result.value.Some?
    requires Visible(MutexQuery(s, rows, k, id, now, fuel).store, CacheKey(k.cacheShopKey, id), later)
    ensures var first := MutexQuery(s, rows, k, id, now, fuel);
      MutexQuery(first.store, rows, k, id, later, fuel') == Cache.Step(first.result, first.store, false)
  {
  }

  /**
   * A caller that never gets the lock still runs the `finally`: when its
   * retries give out, it has deleted the lock another caller holds.
   */
  lemma MutexExhaustedDeletesForeignLock(s: Store<Shop>, rows: Table, k: ShopConstants, id: int, now: int)
    requires EntersTry(s, CacheKey(k.cacheShopKey, id), now) && Visible(s, k.lockShopKey, now)
    ensures var o := MutexQuery(s, rows, k, id, now, 0);
      o.result == Err(RetriesExhausted) && k.lockShopKey in s && k.lockShopKey !in o.store
  {
  }

  /**
   * `queryWithMutex` as evidently intended: only the caller that acquired
   * the lock releases it; a failed attempt sleeps and retries outside the
   * `try`. A caller whose retries give out leaves the store as it found it;
   * a caller that got the lock leaves it released.
   */
  function MutexQueryFixed(s: Store<Shop>, rows: Table, k: ShopConstants, id: int, now: int, fuel: nat)
    : (o: Cache.Step<Shop, Option<Shop>>)
    ensures var key := CacheKey(k.cacheShopKey, id);
      && (!EntersTry(s, key, now) ==> o.store == s && !o.consulted)
      && (o.result == Err(RetriesExhausted) ==> o.store == s && !o.consulted)
      && (EntersTry(s, key, now) && o.result != Err(RetriesExhausted) ==> k.lockShopKey !in o.store)
      && SameExcept(s, o.store, {key, k.lockShopKey})
    decreases fuel
  {
    var key := CacheKey(k.cacheShopKey, id);
    var json := Read(s, key, now);
    if json.Mistyped? then Cache.Step(Err(WrongType), s, false)
    else if !IsBlank(json) then Cache.Step(DecodeBean(json.v), s, false)
    else if IsSentinel(json) then Cache.Step(Ok(None), s, false)
    else if Visible(s, k.lockShopKey, now) then
      if fuel == 0 then Cache.Step(Err(RetriesExhausted), s, false)
      else MutexQueryFixed(s, rows, k, id, now + 50, fuel - 1)
    else
      var attempt := Rebuilt(TryLock(s, k.lockShopKey, now).1, RowById(rows, id), k, key, now + 200);
      attempt.(store := attempt.store - {k.lockShopKey})
  }

  /** The intended query ends too: with retries enough to outlast the lock's deadline, it gets the lock. */
  lemma {:induction false} FixedMutexRetriesEnd(s: Store<Shop>, rows: Table, k: ShopConstants, id: int, now: int, fuel: nat)
    requires k.lockShopKey in s ==> s[k.lockShopKey].deadline.Some? && s[k.lockShopKey].deadline.value <= now + 50 * fuel
    ensures MutexQueryFixed(s, rows, k, id, now, fuel).result != Err(RetriesExhausted)
    decreases fuel
  {
    if fuel > 0 {
      FixedMutexRetriesEnd(s, rows, k, id, now + 50, fuel - 1);
    }
  }

  /** The outcome of `update`: success flag, table and store afterwards. */
  datatype Update = Update(ok: bool, rows: Table, store: Store<Shop>)

  /**
   * `update`: a shop without id fails and changes nothing; otherwise the
   * row is replaced (`updateById` touches no row when the id is unknown) and
   * exactly the shop's cache key is deleted.
   */
  function UpdateShop(rows: Table, s: Store<Shop>, k: ShopConstants, shop: Shop): (o: Update)
    ensures shop.id.None? ==> o == Update(false, rows, s)
    ensures shop.id.Some? ==>
      && o.ok
      && o.rows == (if shop.id.value in rows then rows[shop.id.value := shop] else rows)
      && o.store == s - {CacheKey(k.cacheShopKey, shop.id.value)}
  {
    match shop.id
    case None => Update(false, rows, s)
    case Some(id) =>
      Update(true, if id in rows then rows[id := shop] else rows, s - {CacheKey(k.cacheShopKey, id)})
  }

  /** Updating one shop leaves every other shop's cache entry as it was. */
  lemma UpdateKeepsOtherShops(rows: Table, s: Store<Shop>, k: ShopConstants, shop: Shop, other: int)
    requires shop.id.Some? && shop.id.value != other
    ensures var key := CacheKey(k.cacheShopKey, other);
      var o := UpdateShop(rows, s, k, shop);
      (key in o.store <==> key in s) && (key in s ==> o.store[key] == s[key])
  {
    CacheKeyInjective(k.cacheShopKey, shop.id.value, other);
  }

  /**
   * Invalidation: after updating an existing shop, the next mutex read
   * (lock free) reloads and returns the new row, never the cached old one.
   */
  lemma UpdateThenReadSeesNewShop(rows: Table, s: Store<Shop>, k: ShopConstants, shop: Shop, now: int, fuel: nat)
    requires shop.id.Some? && shop.id.value in rows
    requires CacheKey(k.cacheShopKey, shop.id.value) != k.lockShopKey
    requires !Visible(s, k.lockShopKey, now)
    ensures var o := UpdateShop(rows, s, k, shop);
      MutexQuery(o.store, o.rows, k, shop.id.value, now, fuel).result == Ok(Some(shop))
  {
  }

  /** A rebuild submitted by the shop service: `saveShop2Redis(id, seconds)` then unlock. */
  datatype SaveTask = SaveTask(id: int, seconds: nat, lockKey: string)

  datatype ShopExpiry = ShopExpiry(result: Result<Option<Shop>, Failure>, store: Store<Shop>, task: Option<SaveTask>)

  /**
   * The shop service's `queryWithLogicalExpire`: null for a missing or blank
   * value; the payload when its expiry is after `now`; otherwise the stale
   * payload, and a `saveShop2Redis(id, 20)` rebuild exactly when the per-shop
   * lock `LOCK_SHOP_KEY + id` was free.
   */
  function ShopLogicalExpire(s: Store<Shop>, k: ShopConstants, id: int, now: int): (o: ShopExpiry)
    ensures var json := Read(s, CacheKey(k.cacheShopKey, id), now);
      && (json.Mistyped? ==> o == ShopExpiry(Err(WrongType), s, None))
      && (IsBlank(json) ==> o == ShopExpiry(Ok(None), s, None))
      && (json.Bulk? && !IsBlank(json) && !json.v.Logical? ==> o == ShopExpiry(Err(Unparsable), s, None))
      && (json.Bulk? && json.v.Logical? && json.v.expireTime > now ==> o == ShopExpiry(Ok(json.v.data), s, None))
      && (json.Bulk? && json.v.Logical? && json.v.expireTime <= now ==>
            && o.result == Ok(json.v.data)
            && (o.task.Some? <==> !Visible(s, CacheKey(k.lockShopKey, id), now))
            && (o.task.Some? ==> o.task == Some(SaveTask(id, 20, CacheKey(k.lockShopKey, id))))
            && o.store == TryLock(s, CacheKey(k.lockShopKey, id), now).1)
    ensures o.task.None? ==> o.store == s
  {
    var json := Read(s, CacheKey(k.cacheShopKey, id), now);
    if json.Mistyped? then ShopExpiry(Err(WrongType), s, None)
    else if IsBlank(json) then ShopExpiry(Ok(None), s, None)
    else match DecodeEnvelope(json.v)
      case Err(f) => ShopExpiry(Err(f), s, None)
      case Ok(envelope) =>
        if envelope.1 > now then ShopExpiry(Ok(envelope.0), s, None)
        else
          var lockKey := CacheKey(k.lockShopKey, id);
          var lock := TryLock(s, lockKey, now);
          ShopExpiry(Ok(envelope.0), lock.1, if lock.0 then Some(SaveTask(id, 20, lockKey)) else None)
  }

  /**
   * `saveShop2Redis(id, seconds)`: after the 200 ms pause, the shop's key
   * holds an envelope of `getById(id)` expiring `seconds` later, with no TTL.
   */
  function SaveShop(s: Store<Shop>, rows: Table, k: ShopConstants, id: int, seconds: nat, now: int): (t: Store<Shop>)
    ensures var key := CacheKey(k.cacheShopKey, id);
      key in t && t[key] == Entry(Logical(RowById(rows, id), now + 200 + 1000 * seconds), None)
    ensures SameExcept(s, t, {CacheKey(k.cacheShopKey, id)})
  {
    Put(s, CacheKey(k.cacheShopKey, id), Logical(RowById(rows, id), now + 200 + 1000 * seconds), None)
  }

  /** The submitted task body: `saveShop2Redis`, then the `finally` unlock. */
  function RunSave(s: Store<Shop>, rows: Table, k: ShopConstants, task: SaveTask, now: int): (t: Store<Shop>)
    ensures task.lockKey !in t
    ensures SameExcept(s, t, {CacheKey(k.cacheShopKey, task.id), task.lockKey})
    ensures task.lockKey != CacheKey(k.cacheShopKey, task.id) ==>
      CacheKey(k.cacheShopKey, task.id) in t
      && t[CacheKey(k.cacheShopKey, task.id)] == Entry(Logical(RowById(rows, task.id), now + 200 + 1000 * task.seconds), None)
  {
    SaveShop(s, rows, k, task.id, task.seconds, now) - {task.lockKey}
  }

  /**
   * One rebuild per expiry: the first reader of an expired envelope gets the
   * stale shop and submits a rebuild; a reader while that lock is held gets
   * the stale shop too and submits nothing.
   */
  lemma ExpiredSchedulesOneSave(s: Store<Shop>, k: ShopConstants, id: int, now: int, later: int,
                                data: Option<Shop>, expireTime: int)
    requires k.cacheShopKey != k.lockShopKey
    requires Visible(s, CacheKey(k.cacheShopKey, id), later)
    requires s[CacheKey(k.cacheShopKey, id)].value == Logical(data, expireTime)
    requires expireTime <= now <= later < now + 10_000
    requires !Visible(s, CacheKey(k.lockShopKey, id), now)
    ensures var first := ShopLogicalExpire(s, k, id, now);
      && first.result == Ok(data) && first.task == Some(SaveTask(id, 20, CacheKey(k.lockShopKey, id)))
      && var second := ShopLogicalExpire(first.store, k, id, later);
      && second.result == Ok(data) && second.task.None? && second.store == first.store
  {
    var key, lockKey := CacheKey(k.cacheShopKey, id), CacheKey(k.lockShopKey, id);
    CacheKeyPrefixes(k.cacheShopKey, k.lockShopKey, id);
    var first := ShopLogicalExpire(s, k, id, now);
    assert Read(first.store, key, later) == Bulk(Logical(data, expireTime));
  }

  /**
   * Running the submitted rebuild releases the lock, and for the next 20
   * seconds readers get the shop as the table holds it at rebuild time.
   */
  lemma SaveRefreshes(s: Store<Shop>, rows: Table, k: ShopConstants, id: int, now: int, runAt: int, later: int)
    requires k.cacheShopKey != k.lockShopKey
    requires ShopLogicalExpire(s, k, id, now).task.Some?
    requires runAt <= later < runAt + 20_200
    ensures var first := ShopLogicalExpire(s, k, id, now);
      && var saved := RunSave(first.store, rows, k, first.task.value, runAt);
      && !Visible(saved, CacheKey(k.lockShopKey, id), later)
      && ShopLogicalExpire(saved, k, id, later) == ShopExpiry(Ok(RowById(rows, id)), saved, None)
  {
  }

  /** The outcome of `queryById`: what it returns, the store, and any rebuild the engine submitted. */
  datatype ById = ById(result: Result<Option<Shop>, Failure>, store: Store<Shop>, task: Option<Cache.Rebuild<Shop>>)

  /**
   * `queryById`: the engine's read-through query, then its logical-expiry
   * query on the same key, whose payload is discarded; an exception from
   * either is the call's outcome.
   */
  function LookupShop(s: Store<Shop>, rows: Table, k: ShopConstants, id: int, now: int): (o: ById)
    ensures var p := Cache.PassThrough(s, k.cacheShopKey, id, Loader(rows), k.cacheShopTtl, Minutes, k.cacheNullTtl, now);
      && o.task.None?
      && o.store == p.store
      && (p.result.Err? ==> o.result == p.result)
      && (var e := Cache.LogicalExpire(p.store, k.cacheShopKey, id, Loader(rows), k.cacheShopTtl, Minutes, now);
          p.result.Ok? ==> o.result == if e.result.Err? then Err(e.result.error) else p.result)
  {
    var p := Cache.PassThrough(s, k.cacheShopKey, id, Loader(rows), k.cacheShopTtl, Minutes, k.cacheNullTtl, now);
    if p.result.Err? then ById(p.result, p.store, None)
    else
      var e := Cache.LogicalExpire(p.store, k.cacheShopKey, id, Loader(rows), k.cacheShopTtl, Minutes, now);
      ById(if e.result.Err? then Err(e.result.error) else p.result, e.store, e.task)
  }

  /** A shop's JSON in the cache makes `queryById` fail: the second read decodes it as an envelope. */
  lemma LookupFailsOnCachedShop(s: Store<Shop>, rows: Table, k: ShopConstants, id: int, now: int, shop: Shop)
    requires Visible(s, CacheKey(k.cacheShopKey, id), now) && s[CacheKey(k.cacheShopKey, id)].value == Json(shop)
    ensures LookupShop(s, rows, k, id, now) == ById(Err(Unparsable), s, None)
  {
  }

  /** On a miss `queryById` answers null and writes nothing, whether or not the shop exists. */
  lemma LookupMissIsNull(s: Store<Shop>, rows: Table, k: ShopConstants, id: int, now: int)
    requires !Visible(s, CacheKey(k.cacheShopKey, id), now)
    ensures LookupShop(s, rows, k, id, now) == ById(Ok(None), s, None)
  {
  }

  /** The shop table as a mutable object (MyBatis-Plus `getById` / `updateById`). */
  class ShopTable {
    var rows: Table

    constructor (rows: Table)
      ensures this.rows == rows
    {
      this.rows := rows;
    }

    method GetById(id: int) returns (r: Option<Shop>)
      ensures r == RowById(rows, id)
    {
      r := if id in rows then Some(rows[id]) else None;
    }

    method UpdateById(shop: Shop)
      requires shop.id.Some?
      modifies this
      ensures rows == if shop.id.value in old(rows) then old(rows)[shop.id.value := shop] else old(rows)
    {
      if shop.id.value in rows {
        rows := rows[shop.id.value := shop];
      }
    }
  }

  /** ShopServiceImpl: the shared store, the shop table, the engine, and its own rebuild executor's queue. */
  class ShopService {
    const store: KeyValueStore<Shop>
    const table: ShopTable
    const cacheClient: Cache.CacheClient<Shop>
    const k: ShopConstants
    /** Rebuilds submitted to this class's CACHE_REBUILD_EXECUTOR and not yet run. */
    var pending: seq<SaveTask>

    /** The engine works on the same store and null TTL as the service. */
    predicate Valid() {
      cacheClient.store == store && cacheClient.cacheNullTtl == k.cacheNullTtl
    }

    constructor (store: KeyValueStore<Shop>, table: ShopTable, k: ShopConstants)
      ensures Valid() && this.store == store && this.table == table && this.k == k
      ensures fresh(cacheClient) && cacheClient.pending == [] && pending == []
    {
      this.store := store;
      this.table := table;
      this.k := k;
      cacheClient := new Cache.CacheClient(store, k.cacheNullTtl);
      pending := [];
    }

    method QueryById(id: int, now: int) returns (r: Result<Option<Shop>, Failure>)
      requires Valid()
      modifies store, cacheClient
      ensures var o := LookupShop(old(store.entries), table.rows, k, id, now);
        r == o.result && store.entries == o.store && cacheClient.pending == old(cacheClient.pending)
    {
      var shop := cacheClient.QueryWithPassThrough(k.cacheShopKey, id, Loader(table.rows), k.cacheShopTtl, Minutes, now);
      if shop.Err? {
        return shop;
      }
      var ignored := cacheClient.QueryWithLogicalExpire(k.cacheShopKey, id, Loader(table.rows), k.cacheShopTtl, Minutes, now);
      r := if ignored.Err? then Err(ignored.error) else shop;
    }

    method QueryWithMutex(id: int, now: int, fuel: nat) returns (r: Result<Option<Shop>, Failure>)
      modifies store
      ensures var o := MutexQuery(old(store.entries), table.rows, k, id, now, fuel);
        r == o.result && store.entries == o.store
      decreases fuel
    {
      var key := CacheKey(k.cacheShopKey, id);
      var shopJson := store.Get(key, now);
      if shopJson.Mistyped? {
        return Err(WrongType);
      }
      if !IsBlank(shopJson) {
        return DecodeBean(shopJson.v);
      }
      if IsSentinel(shopJson) {
        return Ok(None);
      }
      // try
      var isLock := TryLock(k.lockShopKey, now);
      if !isLock {
        if fuel == 0 {
          r := Err(RetriesExhausted);
        } else {
          r := QueryWithMutex(id, now + 50, fuel - 1);
        }
      } else {
        var shop := table.GetById(id);
        var shopJson2 := store.Get(key, now + 200);
        if shopJson2.Mistyped? {
          r := Err(WrongType);
        } else if !IsBlank(shopJson2) {
          r := DecodeBean(shopJson2.v);
        } else if IsSentinel(shopJson2) {
          r := Ok(None);
        } else if shop.None? {
          store.Set(key, Text(""), Some(now + 200 + Millis(k.cacheNullTtl, Minutes)));
          r := Ok(None);
        } else {
          store.Set(key, Json(shop.value), Some(now + 200 + Millis(k.cacheShopTtl, Minutes)));
          r := Ok(shop);
        }
      }
      // finally
      Unlock(k.lockShopKey);
    }

    method QueryWithLogicalExpire(id: int, now: int) returns (r: Result<Option<Shop>, Failure>)
      modifies store, this
      ensures var o := ShopLogicalExpire(old(store.entries), k, id, now);
        r == o.result && store.entries == o.store
        && pending == old(pending) + if o.task.Some? then [o.task.value] else []
    {
      var key := CacheKey(k.cacheShopKey, id);
      var shopJson := store.Get(key, now);
      if shopJson.Mistyped? {
        return Err(WrongType);
      }
      if IsBlank(shopJson) {
        return Ok(None);
      }
      var envelope := DecodeEnvelope(shopJson.v);
      if envelope.Err? {
        return Err(envelope.error);
      }
      if envelope.value.1 > now {
        return Ok(envelope.value.0);
      }
      var lockKey := CacheKey(k.lockShopKey, id);
      var isLock := TryLock(lockKey, now);
      pending := pending + if isLock then [SaveTask(id, 20, lockKey)] else [];
      r := Ok(envelope.value.0);
    }

    method Update(shop: Shop) returns (ok: bool)
      modifies table, store
      ensures var o := UpdateShop(old(table.rows), old(store.entries), k, shop);
        ok == o.ok && table.rows == o.rows && store.entries == o.store
    {
      if shop.id.None? {
        return false;
      }
      table.UpdateById(shop);
      store.Delete(CacheKey(k.cacheShopKey, shop.id.value));
      ok := true;
    }

    method SaveShop2Redis(id: int, expireSeconds: nat, now: int)
      modifies store
      ensures store.entries == SaveShop(old(store.entries), table.rows, k, id, expireSeconds, now)
    {
      var shop := table.GetById(id);
      store.Set(CacheKey(k.cacheShopKey, id), Logical(shop, now + 200 + 1000 * expireSeconds), None);
    }

    /** Runs the oldest submitted rebuild, if any. */
    method RunNextSave(now: int) returns (ran: bool)
      modifies store, this
      ensures ran <==> old(pending) != []
      ensures ran ==> store.entries == RunSave(old(store.entries), table.rows, k, old(pending[0]), now)
                      && pending == old(pending[1..])
      ensures !ran ==> store.entries == old(store.entries) && pending == old(pending)
    {
      if pending == [] {
        return false;
      }
      var task := pending[0];
      pending := pending[1..];
      SaveShop2Redis(task.id, task.seconds, now);
      Unlock(task.lockKey);
      ran := true;
    }

    method TryLock(key: string, now: int) returns (ok: bool)
      modifies store
      ensures (ok, store.entries) == KeyValue.TryLock(old(store.entries), key, now)
    {
      ok := store.SetIfAbsent(key, now);
    }

    method Unlock(key: string)
      modifies store
      ensures store.entries == old(store.entries) - {key}
    {
      store.Delete(key);
    }
  }
}
