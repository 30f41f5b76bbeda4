# Shop cache and code login over a key-value store

A Dafny model of the Redis-backed caching core of a shop-review service:

- `CacheClient` is the generic cache engine. Its operations are:
  - a plain write with a TTL;
  - a write of a logical-expiry envelope (`RedisData`);
  - a read-through query that caches a missing row as the empty-string sentinel;
  - a logical-expiry query that returns stale data and hands a rebuild to a worker pool under a set-if-absent lock.
- `ShopServiceImpl` is the shop service. It has:
  - its own mutex variant (retry until locked, then a double-checked rebuild);
  - its own logical-expiry variant with the `saveShop2Redis` warm-up;
  - invalidate-on-update;
  - `queryById`, which runs the engine's two reads one after the other.
- `UserServiceImpl` handles verification-code login:
  - `sendCode` stores a six-digit code with a TTL;
  - `login` checks the code, finds or creates the phone's user, and stores the user's fields as a hash under a fresh token with a TTL.

The model is sequential. The store is a map from key to an entry: a value plus an optional absolute deadline on a millisecond clock that callers pass in as `now`. An entry whose deadline has passed reads as absent. The database tables are a map from id to shop, and a sequence of users with the next auto-increment id. Each worker pool is a queue of submitted tasks, which a separate step (`RunNextRebuild`, `RunNextSave`) runs later. `Thread.sleep` advances the clock that later store operations see: 50 ms per mutex retry, and 200 ms before the mutex double-check and before `saveShop2Redis` writes.

Each module pairs a pure specification with a class:
- A pure function gives an operation's outcome: what it returns, the store afterwards, whether the loader ran, and what it submitted. The lemmas relate those functions.
- A class has the source's fields and methods. Its methods update the shared store object, the tables and the task queues, and each method is proved to agree with its function.

Java compares the GET reply with the literal `""` by reference (`CacheClient.java:58`, `ShopServiceImpl.java:110`, `140`, `177`). The model reads these comparisons as value equality (`KeyValue.IsSentinel`). The constants in `RedisConstants` and `SystemConstants` are not part of this model, so they are parameters (`Shops.ShopConstants`, `Users.LoginConstants`).

Three places in the code do not do what the surrounding code shows was meant, and the model follows the code as written:
- The read-through query tests `json != ""` (`CacheClient.java:58`). So a true cache miss never reaches the loader, although the commented-out test `json != null` on line 57 and the `== ""` test at `ShopServiceImpl.java:110` show the intent.
- The engine's logical-expiry query locks with the data key itself (`CacheClient.java:103`). The shop service's version of the same query locks `LOCK_SHOP_KEY + id` (`ShopServiceImpl.java:194`).
- The mutex query locks the single key `LOCK_SHOP_KEY` with no id (`ShopServiceImpl.java:116`), unlike the per-shop lock at line 194. This one does not break the query: it only makes all shops' rebuilds wait for one another.

Modules:
- `Wrappers`: Option and Result.
- `Keys`: keys as prefix plus `Long.toString(id)`, with injectivity.
- `KeyValue`: the store and the commands used: GET, SET with and without TTL, SET NX, DEL, HSET, EXPIRE.
- `Cache`: CacheClient.
- `Shops`: ShopServiceImpl.
- `Users`: UserServiceImpl.

## Model

| member | source | states |
|---|---|---|
| Keys.CacheKey | src/main/java/com/hmdp/utils/CacheClient.java:48 | the key starts with the prefix and is strictly longer than it |
| Keys.CacheKeyInjective | src/main/java/com/hmdp/service/impl/ShopServiceImpl.java:167 | under one prefix, distinct ids have distinct cache keys, so writing or deleting one shop's key never touches another's |
| Keys.CacheKeyPrefixes | src/main/java/com/hmdp/service/impl/ShopServiceImpl.java:194 | for one id, the data key and a lock key with a different prefix are different keys |
| KeyValue.Read | src/main/java/com/hmdp/utils/CacheClient.java:50 | GET is null exactly when the key is absent or expired, a string when it holds one, and a WRONGTYPE error on a hash |
| KeyValue.DecodeBean | src/main/java/com/hmdp/utils/CacheClient.java:54 | only an object's JSON decodes, to that object; anything else is a decoding failure |
| KeyValue.DecodeEnvelope | src/main/java/com/hmdp/utils/CacheClient.java:91-93 | only an envelope decodes, to its payload and its logical expiry; anything else is a decoding failure |
| KeyValue.TryLock | src/main/java/com/hmdp/utils/CacheClient.java:127-130 | set-if-absent succeeds exactly when the key is absent or expired, then holds "1" for 10 s; on failure nothing changes |
| KeyValue.HashPut | src/main/java/com/hmdp/service/impl/UserServiceImpl.java:104 | HSET fails with WRONGTYPE exactly on a live string key; otherwise the key holds a hash containing every given field with its value, and no other key changes |
| KeyValue.ExpireKey | src/main/java/com/hmdp/service/impl/UserServiceImpl.java:106 | EXPIRE gives a live key the deadline now + ttl and leaves its value; an absent key stays absent; no other key changes |
| KeyValue.KeyValueStore.Get | src/main/java/com/hmdp/utils/CacheClient.java:50 | the GET reply of the current entries at `now` |
| KeyValue.KeyValueStore.Set | src/main/java/com/hmdp/utils/CacheClient.java:34 | the key holds exactly the new entry; no other key changes |
| KeyValue.KeyValueStore.SetIfAbsent | src/main/java/com/hmdp/utils/CacheClient.java:128 | the entries and the flag are those of the lock attempt |
| KeyValue.KeyValueStore.Delete | src/main/java/com/hmdp/utils/CacheClient.java:133 | the key is gone; no other key changes |
| KeyValue.KeyValueStore.PutAll | src/main/java/com/hmdp/service/impl/UserServiceImpl.java:104 | the entries are those of HSET, or unchanged on WRONGTYPE |
| KeyValue.KeyValueStore.Expire | src/main/java/com/hmdp/service/impl/UserServiceImpl.java:106 | the entries are those of EXPIRE |
| Cache.SetValue | src/main/java/com/hmdp/utils/CacheClient.java:33-35 | the key holds the value's JSON and is readable until exactly now + the TTL and not after; no other key changes |
| Cache.SetLogical | src/main/java/com/hmdp/utils/CacheClient.java:37-44 | the key holds an envelope expiring logically at now + the TTL, with no store TTL, so it stays readable at every later time; no other key changes |
| Cache.PassThrough | src/main/java/com/hmdp/utils/CacheClient.java:46-74 | as written: a non-blank value is decoded with no load and no write; a miss, or blank text other than "", returns null with no load and no write; the loader runs exactly on "", and then its null is cached as "" for the null TTL, or its row as JSON for the given TTL and returned; only the query's own key can change |
| Cache.PassThroughMissReturnsNull | src/main/java/com/hmdp/utils/CacheClient.java:58-61 | as written, a miss returns null and writes nothing, whatever the database holds |
| Cache.PassThroughFixed | src/main/java/com/hmdp/utils/CacheClient.java:57-74 | as intended: the loader runs exactly on a miss, and its result is returned and cached (null as "" for the null TTL); a cached blank value returns null with no load |
| Cache.FixedCachesAbsence | src/main/java/com/hmdp/utils/CacheClient.java:63-68 | penetration protection: for a missing row, the first query loads and answers null, and a second query within the null TTL answers null without loading and without writing |
| Cache.FixedAbsenceExpires | src/main/java/com/hmdp/utils/CacheClient.java:67 | once the null TTL has run out, the next query loads again |
| Cache.FixedCachesValue | src/main/java/com/hmdp/utils/CacheClient.java:70-73 | for an existing row, the first query returns it, and a second query within the TTL returns the same row from the cache without loading |
| Cache.LogicalExpireAt | src/main/java/com/hmdp/utils/CacheClient.java:79-125 | missing or blank: null, nothing changes; not an envelope: decoding failure; logical expiry strictly after now: the payload, no lock attempt, no task; expired: the stale payload, the store after the lock attempt, and a rebuild submitted exactly when the lock key was free |
| Cache.LogicalExpire | src/main/java/com/hmdp/utils/CacheClient.java:103-106 | as written, the lock key is the data key just read as present: no rebuild is ever submitted and the store never changes, though the envelope's payload is still returned |
| Cache.RunRebuild | src/main/java/com/hmdp/utils/CacheClient.java:108-121 | the task always leaves the lock key deleted; with a separate lock key, the data key holds a fresh envelope of the reloaded row; nothing else changes |
| Cache.RebuildDeletesOwnEntry | src/main/java/com/hmdp/utils/CacheClient.java:113-118 | with the lock key equal to the data key, the rebuild's unlock deletes the envelope it has just written |
| Cache.LogicalExpireFixed | src/main/java/com/hmdp/utils/CacheClient.java:100-124 | as intended, with a lock key of its own prefix: an expired envelope with the lock free returns the stale payload and submits a rebuild |
| Cache.FixedSchedulesOneRebuild | src/main/java/com/hmdp/utils/CacheClient.java:100-124 | one rebuild per expiry: the first reader submits it, and a second reader within the lock's 10 s gets the same stale payload, submits nothing and changes nothing |
| Cache.FixedRebuildRefreshes | src/main/java/com/hmdp/utils/CacheClient.java:108-121 | after the submitted rebuild runs, the lock is free and, until the new logical expiry, readers get the reloaded row with no task and no change |
| Cache.CacheClient.constructor | src/main/java/com/hmdp/utils/CacheClient.java:29-31 | the client works on the given store, with an empty rebuild queue |
| Cache.CacheClient.Set | src/main/java/com/hmdp/utils/CacheClient.java:33-35 | the store becomes `SetValue` of the old one |
| Cache.CacheClient.SetWithLogicalExpire | src/main/java/com/hmdp/utils/CacheClient.java:37-44 | the store becomes `SetLogical` of the old one |
| Cache.CacheClient.QueryWithPassThrough | src/main/java/com/hmdp/utils/CacheClient.java:46-74 | the result and the new store are those of `PassThrough` |
| Cache.CacheClient.QueryWithLogicalExpire | src/main/java/com/hmdp/utils/CacheClient.java:79-125 | the result and the new store are those of `LogicalExpire`, and the rebuild queue grows by exactly the task it submits |
| Cache.CacheClient.RunNextRebuild | src/main/java/com/hmdp/utils/CacheClient.java:108-121 | runs the oldest queued rebuild, if any, as `RunRebuild`, and removes it from the queue; with none queued, nothing changes |
| Cache.CacheClient.TryLock | src/main/java/com/hmdp/utils/CacheClient.java:127-130 | the flag and the new store are those of the set-if-absent lock |
| Cache.CacheClient.Unlock | src/main/java/com/hmdp/utils/CacheClient.java:132-135 | the lock key is deleted and nothing else changes |
| Shops.RowById | src/main/java/com/hmdp/service/impl/ShopServiceImpl.java:127 | a row is found exactly when the id is in the table, and it is that row |
| Shops.Rebuilt | src/main/java/com/hmdp/service/impl/ShopServiceImpl.java:127-153 | under the lock, the double-check re-read wins over the database row (its value or "" is returned with no write); only a still-empty key is written, "" with the null TTL for a missing row, the row's JSON with the shop TTL otherwise |
| Shops.MutexQuery | src/main/java/com/hmdp/service/impl/ShopServiceImpl.java:98-162 | a non-blank value returns its decoding and an exact "" returns null, with no lock, no load and no change; a miss that gets past the retries returns `getById`'s row; with the lock free, a miss caches that row as JSON for the shop TTL, or "" for the null TTL when there is none, from the end of the 200 ms pause; on any miss the global lock key is gone afterwards; only the shop's key and the lock key can change; a returned shop is what the cache holds afterwards, and a returned null is matched by a cached "" |
| Shops.MutexRetriesEnd | src/main/java/com/hmdp/service/impl/ShopServiceImpl.java:118-125 | with retries enough to outlast the lock's deadline, the retry loop gets the lock: it never runs out of retries |
| Shops.MutexSecondCallHits | src/main/java/com/hmdp/service/impl/ShopServiceImpl.java:101-107 | after a call returns a shop, a later call while the entry lives returns the same shop from the cache, with no lock, no load and no change |
| Shops.MutexExhaustedDeletesForeignLock | src/main/java/com/hmdp/service/impl/ShopServiceImpl.java:118-158 | as written, a caller that never got the lock still deletes it in `finally`: when its retries give out, the lock another caller holds is gone |
| Shops.MutexQueryFixed | src/main/java/com/hmdp/service/impl/ShopServiceImpl.java:116-162 | as intended, only the lock holder unlocks: a caller that gives up leaves the store as it found it; a caller that got the lock leaves it released; only the shop's key and the lock key change |
| Shops.FixedMutexRetriesEnd | src/main/java/com/hmdp/service/impl/ShopServiceImpl.java:118-125 | the intended query also never runs out of retries once the lock's deadline is within reach |
| Shops.UpdateShop | src/main/java/com/hmdp/service/impl/ShopServiceImpl.java:247-260 | a shop without id fails and changes neither table nor cache; otherwise the row is replaced (an unknown id touches no row) and exactly the shop's cache key is deleted |
| Shops.UpdateKeepsOtherShops | src/main/java/com/hmdp/service/impl/ShopServiceImpl.java:256-258 | updating one shop leaves every other shop's cache entry as it was |
| Shops.UpdateThenReadSeesNewShop | src/main/java/com/hmdp/service/impl/ShopServiceImpl.java:247-260 | invalidate-on-write: after updating an existing shop, the next mutex read (lock free) returns the new row |
| Shops.ShopLogicalExpire | src/main/java/com/hmdp/service/impl/ShopServiceImpl.java:166-214 | missing or blank: null, nothing changes; not an envelope: decoding failure; unexpired: the payload with no lock attempt; expired: the stale payload, and a `saveShop2Redis(id, 20)` task exactly when the per-shop lock was free |
| Shops.SaveShop | src/main/java/com/hmdp/service/impl/ShopServiceImpl.java:272-283 | after the 200 ms pause, the shop's key holds an envelope of the row (or null) expiring the given seconds later, with no store TTL; nothing else changes |
| Shops.RunSave | src/main/java/com/hmdp/service/impl/ShopServiceImpl.java:199-210 | the task always deletes its lock; with a lock key distinct from the data key, the fresh envelope survives; only those two keys change |
| Shops.ExpiredSchedulesOneSave | src/main/java/com/hmdp/service/impl/ShopServiceImpl.java:186-213 | one rebuild per expiry: the first reader of an expired envelope gets the stale shop and submits the save; a reader while that lock is held gets the stale shop, submits nothing and changes nothing |
| Shops.SaveRefreshes | src/main/java/com/hmdp/service/impl/ShopServiceImpl.java:199-210 | after the save runs, the lock is free and, for the next 20 s, readers get the row as the table held it at save time |
| Shops.LookupShop | src/main/java/com/hmdp/service/impl/ShopServiceImpl.java:49-68 | `queryById` returns the read-through query's answer, the logical-expiry query's payload is discarded and it submits nothing, and an exception from either query is the call's outcome |
| Shops.LookupFailsOnCachedShop | src/main/java/com/hmdp/service/impl/ShopServiceImpl.java:54-66 | a shop's JSON in the cache makes `queryById` fail, because the second query decodes it as an envelope |
| Shops.LookupMissIsNull | src/main/java/com/hmdp/service/impl/ShopServiceImpl.java:54-68 | on a miss `queryById` answers null and writes nothing, whether or not the shop exists |
| Shops.ShopTable.GetById | src/main/java/com/hmdp/service/impl/ShopServiceImpl.java:127 | the row for the id, if any |
| Shops.ShopTable.UpdateById | src/main/java/com/hmdp/service/impl/ShopServiceImpl.java:256 | the row with the shop's id is replaced; an unknown id changes nothing |
| Shops.ShopService.constructor | src/main/java/com/hmdp/service/impl/ShopServiceImpl.java:42-47 | the service and its engine share the store and the null TTL; both queues start empty |
| Shops.ShopService.QueryById | src/main/java/com/hmdp/service/impl/ShopServiceImpl.java:49-68 | the result and the new store are those of `LookupShop`; the engine's queue is unchanged |
| Shops.ShopService.QueryWithMutex | src/main/java/com/hmdp/service/impl/ShopServiceImpl.java:98-162 | the result and the new store are those of `MutexQuery` |
| Shops.ShopService.QueryWithLogicalExpire | src/main/java/com/hmdp/service/impl/ShopServiceImpl.java:166-214 | the result and the new store are those of `ShopLogicalExpire`, and the queue grows by exactly its task |
| Shops.ShopService.Update | src/main/java/com/hmdp/service/impl/ShopServiceImpl.java:247-260 | the flag, the table and the store are those of `UpdateShop` |
| Shops.ShopService.SaveShop2Redis | src/main/java/com/hmdp/service/impl/ShopServiceImpl.java:272-283 | the store becomes `SaveShop` of the old one, with the current table |
| Shops.ShopService.RunNextSave | src/main/java/com/hmdp/service/impl/ShopServiceImpl.java:199-210 | runs the oldest queued save, if any, as `RunSave`, and removes it from the queue; with none queued, nothing changes |
| Shops.ShopService.TryLock | src/main/java/com/hmdp/service/impl/ShopServiceImpl.java:262-265 | the flag and the new store are those of the set-if-absent lock |
| Shops.ShopService.Unlock | src/main/java/com/hmdp/service/impl/ShopServiceImpl.java:267-270 | the lock key is deleted and nothing else changes |
| Users.SixDigits | src/main/java/com/hmdp/service/impl/UserServiceImpl.java:53 | the code is six decimal digits |
| Users.CodeSent | src/main/java/com/hmdp/service/impl/UserServiceImpl.java:44-62 | an invalid phone fails and writes nothing; a valid one succeeds and the phone's code key holds a six-digit code for the code TTL in minutes, with no other key changed |
| Users.WithPhone | src/main/java/com/hmdp/service/impl/UserServiceImpl.java:88 | the query result contains every row with the phone and only such rows |
| Users.WithPhoneAppend | src/main/java/com/hmdp/service/impl/UserServiceImpl.java:88-92 | inserting a row with the phone adds exactly that row to the phone's matches |
| Users.CreateUser | src/main/java/com/hmdp/service/impl/UserServiceImpl.java:111-117 | the new user has the phone, the next id, no icon, and a nickname of the prefix plus ten characters; it is appended to the table and the id counter advances |
| Users.UserFields | src/main/java/com/hmdp/service/impl/UserServiceImpl.java:99-102 | the field map holds the nickname, the id as decimal text exactly when it is set, and the icon exactly when it is set, and nothing else |
| Users.FindOrCreate | src/main/java/com/hmdp/service/impl/UserServiceImpl.java:88-92 | several matching rows fail; one is reused with the table unchanged; none creates the user; on success the phone has exactly that one user |
| Users.StoreSession | src/main/java/com/hmdp/service/impl/UserServiceImpl.java:104-106 | fails exactly when the token key holds a live string; otherwise the token key holds a hash with every field of the user and expires the user TTL in seconds after now, with no other key changed |
| Users.LoginOutcome | src/main/java/com/hmdp/service/impl/UserServiceImpl.java:64-109 | an invalid phone, a missing code or a differing code fails and changes nothing; success returns the token, implies the submitted code matched, leaves the phone with exactly one user (the existing one, or the created one), stores that user's fields under the token for the user TTL, and changes no key but the token key, so the code stays |
| Users.SendThenLogin | src/main/java/com/hmdp/service/impl/UserServiceImpl.java:58-83 | the code round trip: after sending a code, logging in with it before it expires succeeds |
| Users.CodeReusable | src/main/java/com/hmdp/service/impl/UserServiceImpl.java:64-109 | since login leaves the code in place, the same code logs in again with another token, without creating another user |
| Users.UserDb.Save | src/main/java/com/hmdp/service/impl/UserServiceImpl.java:115 | the row is appended with the next generated id, which the saved user carries |
| Users.UserService.SendCode | src/main/java/com/hmdp/service/impl/UserServiceImpl.java:44-62 | the result and the new store are those of `CodeSent` |
| Users.UserService.Login | src/main/java/com/hmdp/service/impl/UserServiceImpl.java:64-109 | the result, the new store and the new table are those of `LoginOutcome` |
| Users.UserService.CreateUserWithPhone | src/main/java/com/hmdp/service/impl/UserServiceImpl.java:111-117 | the returned user and the new table are those of `CreateUser` |

## Left out

- Networking, connection handling and Redis itself: the store is an in-memory map. Lazy expiry is modelled as entries that read as absent after their deadline.
- Concurrency: the two fixed thread pools of 10 workers are FIFO queues of submitted tasks, run one at a time by `RunNextRebuild` and `RunNextSave`. Interleavings of callers are not modelled. Two callers racing are shown as one call after another.
- Hutool JSON and `RedisData`: values are an abstract datatype in which decoding inverts encoding. Decoding a value of another shape (an object's JSON as an envelope, or the reverse) is a failure, where hutool may instead build a partly empty object.
- Calendar time: `LocalDateTime.now()` and `plusSeconds` become a millisecond integer clock passed in as `now`.
- `Thread.sleep` becomes a clock advance, and the `InterruptedException` it can throw is not modelled.
- MyBatis-Plus `getById`, `updateById`, `query().eq(..).one()` and `save` become operations on an in-memory table. `updateById` replaces the whole row; the null-field-skipping update strategy is not modelled.
- `RegexUtils.isPhoneInvalid` is a function parameter, and `RandomUtil.randomNumbers(6)` is a natural number rendered as six digits. `RandomUtil.randomString(10)` is any ten-character string, and `UUID.randomUUID()` is a token parameter.
- `BeanUtil` copies `id`, `nickName` and `icon` into the token hash, as the `UserDTO` class would. `UserDTO` is not part of this model.
- The logging call in `sendCode`, and the session parameters, which the live code does not use.
- `LoginInterceptor` is not part of this model. Its live code only checks a thread-local user and answers 401.
- Commented-out code, Spring annotations, `@Transactional`, and wrapping results in the `Result` DTO. A failure message becomes a `Refusal` or a `Failure`.
- TTLs are positive, as every caller passes. The store's rejection of non-positive TTLs is not modelled.
- Shops.MutexQuery: the unbounded retry of `queryWithMutex` is bounded by a `fuel` parameter. Running out of fuel is the `RetriesExhausted` failure, which stands for the stack overflow that unbounded recursion ends in. `Shops.MutexRetriesEnd` shows that enough fuel always suffices once the lock's deadline is within reach.
- Cache.Rebuild: the rebuild task of the engine captures the loader as a function value, as the lambda does, rather than reading the table when it runs. As written, no such task is ever submitted.
- Cache.LogicalExpireFixed: states only the expired-and-lock-free case on its own. `Cache.LogicalExpireAt`, which it instantiates, states every case.
- The class methods model the code as written. The corrected definitions under "## Findings" are stated and proved beside them, and the class methods do not call them.

## Findings

| source | as written | input that shows it | evidently intended | confidence | as-written member | corrected member |
|---|---|---|---|---|---|---|
| src/main/java/com/hmdp/utils/CacheClient.java:58 | the null-sentinel test is `json != ""`, so a cache miss (null) returns null, and the loader is never reached on a miss under either reading of `!=` | an empty store and an id whose row exists: `queryWithPassThrough` returns null and caches nothing | test `json != null` (the commented-out line 57): a miss loads and caches, and a cached "" returns null | not executed | Cache.PassThroughMissReturnsNull | Cache.PassThroughFixed |
| src/main/java/com/hmdp/utils/CacheClient.java:103 | the lock key is `keyPrefix + id`, the data key that was just read as present | any expired envelope: set-if-absent on its own key fails, so no rebuild is submitted and the stale payload is served forever; if a rebuild did run, its unlock would delete the new envelope | a lock key with its own prefix, as `ShopServiceImpl.java:194` uses | not executed | Cache.LogicalExpire | Cache.LogicalExpireFixed |
| src/main/java/com/hmdp/service/impl/ShopServiceImpl.java:121-125 | a failed lock attempt sleeps and retries inside the `try`, so when the retry returns, this frame's `finally` (lines 156-158) deletes the global lock, which this caller never took | caller A holds `LOCK_SHOP_KEY` while rebuilding shop 1; caller B misses on shop 2, fails to lock, and retries; by its next attempt shop 2 is cached, so the retry returns at line 106; B's outer frame then deletes A's lock, and a third caller can rebuild alongside A. The sequential model has no second caller, so it shows the deletion only when the retries run out while the lock is held | retry outside the `try`, so only the caller that acquired the lock releases it | not executed | Shops.MutexExhaustedDeletesForeignLock | Shops.MutexQueryFixed |
