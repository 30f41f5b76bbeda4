/**
 * The generic cache engine (CacheClient): writes with a TTL or a logical
 * expiry, the read-through query that caches nulls, and the logical-expiry
 * query that schedules a rebuild under a set-if-absent lock.
 *
 * Java compares the GET reply with the literal "" by reference; the model
 * reads those comparisons as value equality (`IsSentinel`).
 */
module Cache {
  import opened Wrappers
  import opened KeyValue
  import opened Keys

  /** What a query returns, the store after it, and whether it consulted the loader. */
  datatype Step<T, R> = Step(result: Result<R, Failure>, store: Store<T>, consulted: bool)

  /** `set(key, value, time, unit)`: the key holds the value's JSON for `time` `unit`s; nothing else changes. */
  function SetValue<T>(s: Store<T>, key: string, value: T, time: Positive, unit: TimeUnit, now: int): (t: Store<T>)
    ensures key in t && t[key] == Entry(Json(value), Some(now + Millis(time, unit)))
    ensures Visible(t, key, now) && !Visible(t, key, now + Millis(time, unit))
    ensures SameExcept(s, t, {key})
  {
    Put(s, key, Json(value), Some(now + Millis(time, unit)))
  }

  /**
   * `setWithLogicalExpire(key, value, time, unit)`: the key holds an envelope
   * expiring logically `time` `unit`s from now, with no store TTL, so the
   * store never evicts it; nothing else changes.
   */
  function SetLogical<T>(s: Store<T>, key: string, value: Option<T>, time: Positive, unit: TimeUnit, now: int): (t: Store<T>)
    ensures key in t && t[key] == Entry(Logical(value, now + Millis(time, unit)), None)
    ensures forall later :: Visible(t, key, later)
    ensures SameExcept(s, t, {key})
  {
    Put(s, key, Logical(value, now + Millis(time, unit)), None)
  }

  /**
   * `queryWithPassThrough` as written. A non-blank value is decoded and
   * returned; any other reply except exactly "" (a miss included) returns
   * null; only "" reaches the loader, whose null is cached as "" for
   * `nullTtl` minutes and whose shop is cached for `time` `unit`s.
   */
  function PassThrough<T>(s: Store<T>, prefix: string, id: int, dbFallback: int -> Option<T>,
                          time: Positive, unit: TimeUnit, nullTtl: Positive, now: int): (o: Step<T, Option<T>>)
    ensures var json := Read(s, CacheKey(prefix, id), now);
      && (json.Mistyped? ==> o == Step(Err(WrongType), s, false))
      && (json.Bulk? && !IsBlank(json) ==>
            o.store == s && !o.consulted && o.result == DecodeBean(json.v))
      && (IsBlank(json) && !IsSentinel(json) ==> o == Step(Ok(None), s, false))
      && (o.consulted <==> IsSentinel(json))
      && (o.consulted && dbFallback(id).None? ==>
            o.result == Ok(None)
            && o.store == Put(s, CacheKey(prefix, id), Text(""), Some(now + Millis(nullTtl, Minutes))))
      && (o.consulted && dbFallback(id).Some? ==>
            o.result == Ok(dbFallback(id))
            && o.store == SetValue(s, CacheKey(prefix, id), dbFallback(id).value, time, unit, now))
    ensures SameExcept(s, o.store, {CacheKey(prefix, id)})
  {
    var key := CacheKey(prefix, id);
    var json := Read(s, key, now);
    if json.Mistyped? then Step(Err(WrongType), s, false)
    else if !IsBlank(json) then Step(DecodeBean(json.v), s, false)
    else if !IsSentinel(json) then Step(Ok(None), s, false)
    else match dbFallback(id)
      case None => Step(Ok(None), Put(s, key, Text(""), Some(now + Millis(nullTtl, Minutes))), true)
      case Some(r) => Step(Ok(Some(r)), SetValue(s, key, r, time, unit, now), true)
  }

  /** A miss never loads: `queryWithPassThrough` returns null and writes nothing, whatever the database holds. */
  lemma PassThroughMissReturnsNull<T>(s: Store<T>, prefix: string, id: int, dbFallback: int -> Option<T>,
                                      time: Positive, unit: TimeUnit, nullTtl: Positive, now: int)
    requires !Visible(s, CacheKey(prefix, id), now)
    ensures PassThrough(s, prefix, id, dbFallback, time, unit, nullTtl, now) == Step(Ok(None), s, false)
  {
  }

  /**
   * The read-through query as evidently intended (a miss loads, a cached ""
   * returns null): the test `json != null` of the commented-out line.
   */
  function PassThroughFixed<T>(s: Store<T>, prefix: string, id: int, dbFallback: int -> Option<T>,
                               time: Positive, unit: TimeUnit, nullTtl: Positive, now: int): (o: Step<T, Option<T>>)
    ensures var json := Read(s, CacheKey(prefix, id), now);
      && (o.consulted <==> json.Nil?)
      && (!o.consulted ==> o.store == s)
      && (json.Bulk? && IsBlank(json) ==> o.result == Ok(None))
      && (json.Nil? ==> o.result == Ok(dbFallback(id)))
      && (json.Nil? && dbFallback(id).None? ==>
            Visible(o.store, CacheKey(prefix, id), now)
            && o.store[CacheKey(prefix, id)] == Entry(Text(""), Some(now + Millis(nullTtl, Minutes))))
      && (json.Nil? && dbFallback(id).Some? ==>
            o.store == SetValue(s, CacheKey(prefix, id), dbFallback(id).value, time, unit, now))
    ensures SameExcept(s, o.store, {CacheKey(prefix, id)})
  {
    var key := CacheKey(prefix, id);
    var json := Read(s, key, now);
    if json.Mistyped? then Step(Err(WrongType), s, false)
    else if !IsBlank(json) then Step(DecodeBean(json.v), s, false)
    else if json.Bulk? then Step(Ok(None), s, false)
    else match dbFallback(id)
      case None => Step(Ok(None), Put(s, key, Text(""), Some(now + Millis(nullTtl, Minutes))), true)
      case Some(r) => Step(Ok(Some(r)), SetValue(s, key, r, time, unit, now), true)
  }

  /**
   * Penetration protection of the intended query: for an id the database
   * lacks, a second query before the null TTL runs out answers null without
   * consulting the loader.
   */
  lemma FixedCachesAbsence<T>(s: Store<T>, prefix: string, id: int, dbFallback: int -> Option<T>,
                              time: Positive, unit: TimeUnit, nullTtl: Positive, now: int, later: int)
    requires dbFallback(id).None? && !Visible(s, CacheKey(prefix, id), now)
    requires now <= later < now + Millis(nullTtl, Minutes)
    ensures var first := PassThroughFixed(s, prefix, id, dbFallback, time, unit, nullTtl, now);
      && first.consulted && first.result == Ok(None)
      && var second := PassThroughFixed(first.store, prefix, id, dbFallback, time, unit, nullTtl, later);
      && !second.consulted && second.result == Ok(None) && second.store == first.store
  {
  }

  /** ... and once the null TTL has run out, the next query consults the loader again. */
  lemma FixedAbsenceExpires<T>(s: Store<T>, prefix: string, id: int, dbFallback: int -> Option<T>,
                               time: Positive, unit: TimeUnit, nullTtl: Positive, now: int, later: int)
    requires dbFallback(id).None? && !Visible(s, CacheKey(prefix, id), now)
    requires now + Millis(nullTtl, Minutes) <= later
    ensures var first := PassThroughFixed(s, prefix, id, dbFallback, time, unit, nullTtl, now);
      PassThroughFixed(first.store, prefix, id, dbFallback, time, unit, nullTtl, later).consulted
  {
  }

  /**
   * For an id the database holds, the intended query returns the loader's
   * value, and a second query within the TTL returns the same value from
   * the cache without consulting the loader.
   */
  lemma FixedCachesValue<T>(s: Store<T>, prefix: string, id: int, dbFallback: int -> Option<T>,
                            time: Positive, unit: TimeUnit, nullTtl: Positive, now: int, later: int)
    requires dbFallback(id).Some? && !Visible(s, CacheKey(prefix, id), now)
    requires now <= later < now + Millis(time, unit)
    ensures var first := PassThroughFixed(s, prefix, id, dbFallback, time, unit, nullTtl, now);
      && first.result == Ok(dbFallback(id))
      && var second := PassThroughFixed(first.store, prefix, id, dbFallback, time, unit, nullTtl, later);
      && !second.consulted && second.result == first.result
  {
  }

  /** A rebuild handed to the worker pool: the lambda's captured variables. */
  datatype Rebuild<T> = Rebuild(key: string, id: int, dbFallback: int -> Option<T>,
                                time: Positive, unit: TimeUnit, lockKey: string)

  /** What a logical-expiry query returns, the store after it, and the rebuild it submitted. */
  datatype Expiry<T> = Expiry(result: Result<Option<T>, Failure>, store: Store<T>, task: Option<Rebuild<T>>)

  /**
   * The logical-expiry query with the data key and the lock key as
   * parameters. Missing or blank: null. Unexpired (expiry strictly after
   * `now`): the payload, with no lock attempt and no task. Expired: the stale
   * payload, and a rebuild is submitted exactly when the lock was free.
   */
  function LogicalExpireAt<T>(s: Store<T>, key: string, lockKey: string, id: int, dbFallback: int -> Option<T>,
                              time: Positive, unit: TimeUnit, now: int): (o: Expiry<T>)
    ensures var json := Read(s, key, now);
      && (json.Mistyped? ==> o == Expiry(Err(WrongType), s, None))
      && (IsBlank(json) ==> o == Expiry(Ok(None), s, None))
      && (json.Bulk? && !IsBlank(json) && !json.v.Logical? ==> o == Expiry(Err(Unparsable), s, None))
      && (json.Bulk? && json.v.Logical? && json.v.expireTime > now ==> o == Expiry(Ok(json.v.data), s, None))
      && (json.Bulk? && json.v.Logical? && json.v.expireTime <= now ==>
            && o.result == Ok(json.v.data)
            && (o.task.Some? <==> !Visible(s, lockKey, now))
            && (o.task.Some? ==> o.task == Some(Rebuild(key, id, dbFallback, time, unit, lockKey)))
            && o.store == TryLock(s, lockKey, now).1)
    ensures o.task.None? ==> o.store == s
  {
    var json := Read(s, key, now);
    if json.Mistyped? then Expiry(Err(WrongType), s, None)
    else if IsBlank(json) then Expiry(Ok(None), s, None)
    else match DecodeEnvelope(json.v)
      case Err(f) => Expiry(Err(f), s, None)
      case Ok(envelope) =>
        if envelope.1 > now then Expiry(Ok(envelope.0), s, None)
        else
          var lock := TryLock(s, lockKey, now);
          Expiry(Ok(envelope.0), lock.1,
                 if lock.0 then Some(Rebuild(key, id, dbFallback, time, unit, lockKey)) else None)
  }

  /**
   * `queryWithLogicalExpire` as written: the lock key is the data key, which
   * has just been read as present, so the lock attempt always fails: no
   * rebuild is ever submitted and the store never changes.
   */
  function LogicalExpire<T>(s: Store<T>, prefix: string, id: int, dbFallback: int -> Option<T>,
                            time: Positive, unit: TimeUnit, now: int): (o: Expiry<T>)
    ensures o.task.None? && o.store == s
    ensures var json := Read(s, CacheKey(prefix, id), now);
      json.Bulk? && json.v.Logical? ==> o.result == Ok(json.v.data)
  {
    LogicalExpireAt(s, CacheKey(prefix, id), CacheKey(prefix, id), id, dbFallback, time, unit, now)
  }

  /**
   * The rebuild task body: load, write a fresh envelope, and always unlock.
   * When the lock key differs from the data key the new envelope survives.
   */
  function RunRebuild<T>(s: Store<T>, task: Rebuild<T>, now: int): (t: Store<T>)
    ensures task.lockKey !in t
    ensures task.lockKey != task.key ==>
      task.key in t && t[task.key] == Entry(Logical(task.dbFallback(task.id), now + Millis(task.time, task.unit)), None)
    ensures SameExcept(s, t, {task.key, task.lockKey})
  {
    SetLogical(s, task.key, task.dbFallback(task.id), task.time, task.unit, now) - {task.lockKey}
  }

  /** With the lock key equal to the data key, the rebuild's unlock deletes the envelope it has just written. */
  lemma RebuildDeletesOwnEntry<T>(s: Store<T>, prefix: string, id: int, dbFallback: int -> Option<T>,
                                  time: Positive, unit: TimeUnit, now: int)
    ensures var key := CacheKey(prefix, id);
      key !in RunRebuild(s, Rebuild(key, id, dbFallback, time, unit, key), now)
  {
  }

  /** The logical-expiry query as evidently intended: the lock key has its own prefix. */
  function LogicalExpireFixed<T>(s: Store<T>, prefix: string, lockPrefix: string, id: int, dbFallback: int -> Option<T>,
                                 time: Positive, unit: TimeUnit, now: int): (o: Expiry<T>)
    requires prefix != lockPrefix
    ensures var json := Read(s, CacheKey(prefix, id), now);
      (json.Bulk? && json.v.Logical? && json.v.expireTime <= now && !Visible(s, CacheKey(lockPrefix, id), now))
      ==> o.task.Some? && o.result == Ok(json.v.data)
  {
    LogicalExpireAt(s, CacheKey(prefix, id), CacheKey(lockPrefix, id), id, dbFallback, time, unit, now)
  }

  /**
   * One rebuild per expiry: with the lock free, a reader of an expired entry
   * gets the stale payload and submits one rebuild; a second reader while
   * that rebuild holds the lock gets the same stale payload and submits none.
   */
  lemma FixedSchedulesOneRebuild<T>(s: Store<T>, prefix: string, lockPrefix: string, id: int,
                                    dbFallback: int -> Option<T>, time: Positive, unit: TimeUnit,
                                    now: int, later: int, data: Option<T>, expireTime: int)
    requires prefix != lockPrefix
    requires Visible(s, CacheKey(prefix, id), later) && s[CacheKey(prefix, id)].value == Logical(data, expireTime)
    requires expireTime <= now <= later < now + 10_000
    requires !Visible(s, CacheKey(lockPrefix, id), now)
    ensures var first := LogicalExpireFixed(s, prefix, lockPrefix, id, dbFallback, time, unit, now);
      && first.result == Ok(data) && first.task.Some?
      && var second := LogicalExpireFixed(first.store, prefix, lockPrefix, id, dbFallback, time, unit, later);
      && second.result == Ok(data) && second.task.None? && second.store == first.store
  {
  }

  /**
   * Running the submitted rebuild releases the lock and refreshes the entry:
   * until the new logical expiry, readers get the reloaded payload and
   * submit nothing.
   */
  lemma FixedRebuildRefreshes<T>(s: Store<T>, prefix: string, lockPrefix: string, id: int,
                                 dbFallback: int -> Option<T>, time: Positive, unit: TimeUnit,
                                 now: int, runAt: int, later: int)
    requires prefix != lockPrefix
    requires LogicalExpireFixed(s, prefix, lockPrefix, id, dbFallback, time, unit, now).task.Some?
    requires runAt <= later < runAt + Millis(time, unit)
    ensures var first := LogicalExpireFixed(s, prefix, lockPrefix, id, dbFallback, time, unit, now);
      && var rebuilt := RunRebuild(first.store, first.task.value, runAt);
      && !Visible(rebuilt, CacheKey(lockPrefix, id), later)
      && LogicalExpireFixed(rebuilt, prefix, lockPrefix, id, dbFallback, time, unit, later)
           == Expiry(Ok(dbFallback(id)), rebuilt, None)
  {
  }

  /** CacheClient: the engine over the shared store, with its static rebuild executor's queue. */
  class CacheClient<T> {
    const store: KeyValueStore<T>
    /** RedisConstants.CACHE_NULL_TTL, in minutes. */
    const cacheNullTtl: Positive
    /** Rebuilds submitted to CACHE_REBUILD_EXECUTOR and not yet run. */
    var pending: seq<Rebuild<T>>

    constructor (store: KeyValueStore<T>, cacheNullTtl: Positive)
      ensures this.store == store && this.cacheNullTtl == cacheNullTtl && pending == []
    {
      this.store := store;
      this.cacheNullTtl := cacheNullTtl;
      pending := [];
    }

    method Set(key: string, value: T, time: Positive, unit: TimeUnit, now: int)
      modifies store
      ensures store.entries == SetValue(old(store.entries), key, value, time, unit, now)
    {
      store.Set(key, Json(value), Some(now + Millis(time, unit)));
    }

    method SetWithLogicalExpire(key: string, value: Option<T>, time: Positive, unit: TimeUnit, now: int)
      modifies store
      ensures store.entries == SetLogical(old(store.entries), key, value, time, unit, now)
    {
      store.Set(key, Logical(value, now + Millis(time, unit)), None);
    }

    method QueryWithPassThrough(keyPrefix: string, id: int, dbFallback: int -> Option<T>,
                                time: Positive, unit: TimeUnit, now: int) returns (r: Result<Option<T>, Failure>)
      modifies store
      ensures var o := PassThrough(old(store.entries), keyPrefix, id, dbFallback, time, unit, cacheNullTtl, now);
        r == o.result && store.entries == o.store
    {
      var key := CacheKey(keyPrefix, id);
      var json := store.Get(key, now);
      if json.Mistyped? {
        return Err(WrongType);
      }
      if !IsBlank(json) {
        return DecodeBean(json.v);
      }
      if !IsSentinel(json) {
        return Ok(None);
      }
      var loaded := dbFallback(id);
      if loaded.None? {
        store.Set(key, Text(""), Some(now + Millis(cacheNullTtl, Minutes)));
        return Ok(None);
      }
      Set(key, loaded.value, time, unit, now);
      r := Ok(loaded);
    }

    method QueryWithLogicalExpire(keyPrefix: string, id: int, dbFallback: int -> Option<T>,
                                  time: Positive, unit: TimeUnit, now: int) returns (r: Result<Option<T>, Failure>)
      modifies store, this
      ensures var o := LogicalExpire(old(store.entries), keyPrefix, id, dbFallback, time, unit, now);
        r == o.result && store.entries == o.store
        && pending == old(pending) + (if o.task.Some? then [o.task.value] else [])
    {
      var key := CacheKey(keyPrefix, id);
      var json := store.Get(key, now);
      if json.Mistyped? {
        return Err(WrongType);
      }
      if IsBlank(json) {
        return Ok(None);
      }
      var envelope := DecodeEnvelope(json.v);
      if envelope.Err? {
        return Err(envelope.error);
      }
      if envelope.value.1 > now {
        return Ok(envelope.value.0);
      }
      var lockKey := CacheKey(keyPrefix, id);
      var isLock := TryLock(lockKey, now);
      // submitting to the executor enqueues the task
      pending := pending + if isLock then [Rebuild(key, id, dbFallback, time, unit, lockKey)] else [];
      r := Ok(envelope.value.0);
    }

    /** Runs the oldest submitted rebuild, if any: load, write the envelope, unlock. */
    method RunNextRebuild(now: int) returns (ran: bool)
      modifies store, this
      ensures ran <==> old(pending) != []
      ensures ran ==> store.entries == RunRebuild(old(store.entries), old(pending[0]), now) && pending == old(pending[1..])
      ensures !ran ==> store.entries == old(store.entries) && pending == old(pending)
    {
      if pending == [] {
        return false;
      }
      var task := pending[0];
      pending := pending[1..];
      var r1 := task.dbFallback(task.id);
      SetWithLogicalExpire(task.key, r1, task.time, task.unit, now);
      Unlock(task.lockKey);
      ran := true;
    }

    method TryLock(key: string, now: int) returns (ok: bool)
      modifies store
      ensures (ok, store.entries) == KeyValue.TryLock(old(store.entries), key, now)
    {
      ok := store.SetIfAbsent(key, now);
    }

    method Unlock(key: string)
      modifies store
      ensures store.entries == old(store.entries) - {key}
    {
      store.Delete(key);
    }
  }
}
