# Redis caching, locking, id and flash-sale core, modelled in Dafny

This project models the Redis-facing core of a Spring Boot review site
(the "hmdp" exercise): how shops are cached, how locks are taken, how ids
are generated, and how flash-sale voucher orders are taken and persisted.
Each Java class becomes one Dafny module:

- `Strings` (`strings.dfy`) holds what `"prefix" + id` renders and hutool's `StrUtil.isBlank`.
- `Redis` (`redis.dfy`) is the store behind `StringRedisTemplate`.
  - A key maps to a payload and an optional expiry instant.
  - Payloads are plain text, INCR counters, shop JSON, `RedisData` JSON or a Redisson lock hash.
  - The `RedisStore` class holds the map and offers GET, SET, SETEX, SET NX, DEL, INCR and expiry.
- `IdWorker` (`id_worker.dfy`) is `RedisIdWorker.nextId`.
  - The id is the seconds since 2022-01-01 shifted left 32 bits, OR-ed with a per-prefix, per-day INCR counter.
  - Java `long` arithmetic, `<<` and `|` are written out on unbounded integers.
- `SimpleLock` (`simple_lock.dfy`) is `SimpleRedisLock`.
  - `trylock` is SET NX with a lease, holding the token "UUID-" + thread id.
  - `unlock` is the atomic compare-and-delete.
- `Cache` (`cache_client.dfy`) is `CacheClient`: the setters, pass-through, logical expiry with its rebuild task, and the flag lock.
- `ShopService` (`shop_service.dfy`) is `ShopServiceImpl`. It covers:
  - the three shop read paths
  - `saveShop2Redis` and its rebuild task
  - `update`, and `queryById`
  - tb_shop is a map from id to row
- `VoucherOrders` (`voucher_order.dfy`) is `VoucherOrderServiceImpl`. It covers:
  - `seckillVoucher`
  - `createVoucher`, with tb_seckill_voucher stock and tb_voucher_order as one `Tables` value
  - `handleVoucherOrder`, with the Redisson per-user lock
  - the stream consumer `voucherOrderTask.run` and `handlePendingList` over a stream with one consumer group

Every operation that changes the store is a method of a class holding that state. Each method is proved equal to a pure function of the old state: for example, `ensures (ok, redis.kv) == TryLockSpec(old(redis.kv), ...)`. The lemmas then state what the source promises, or fails to deliver, about those functions.

Time is an input in milliseconds and the store drops expired keys through `Live`. Thread identities, the logged-in user (`UserHolder`), the database fallback and the admission script's answer are all parameters.

Where the code does something its own comments or the surrounding design evidently did not intend, the model follows the code as written. A corrected variant with the intended property proved sits beside it (see "## Findings").

## Model

| member | source | states |
|---|---|---|
| Strings.Digits | src/main/java/com/hmdp/service/impl/ShopServiceImpl.java:95 | a number's decimal rendering is non-empty, all digits, and has at least two digits from 10 up |
| Strings.LongText | src/main/java/com/hmdp/service/impl/ShopServiceImpl.java:95 | `"..." + id` appends a non-empty run of digits, possibly after a '-' |
| Strings.DigitsInjective | src/main/java/com/hmdp/service/impl/ShopServiceImpl.java:95 | distinct non-negative ids render differently (induction on the digits) |
| Strings.LongTextInjective | src/main/java/com/hmdp/service/impl/ShopServiceImpl.java:95 | distinct Longs render differently, so per-id keys never collide |
| Strings.KeyInjective | src/main/java/com/hmdp/utils/CacheClient.java:44 | `prefix + id` is the same key for two ids only when the ids are equal |
| Strings.PrefixesDiffer | src/main/java/com/hmdp/utils/CacheClient.java:44-46 | the same id under two different prefixes gives two different keys |
| Redis.ShopOf | src/main/java/com/hmdp/utils/CacheClient.java:50 | decoding a cached value as a Shop gives the shop for shop JSON; only non-JSON text, counters and lock hashes fail |
| Redis.RecordOf | src/main/java/com/hmdp/utils/CacheClient.java:84-86 | decoding as `RedisData` and reading its expiry succeeds exactly on a `RedisData` document and yields its data and expiry |
| Redis.Deadline | src/main/java/com/hmdp/utils/CacheClient.java:37 | a positive TTL ends strictly after the instant it was set |
| Redis.ToSeconds | src/main/java/com/hmdp/utils/CacheClient.java:37 | `TimeUnit.toSeconds` keeps seconds and never shortens a positive duration |
| Redis.Lookup | src/main/java/com/hmdp/utils/CacheClient.java:46 | GET gives a value exactly for a present key, and that key's value |
| Redis.Put | src/main/java/com/hmdp/utils/CacheClient.java:30 | SET stores the value and TTL under the key and leaves every other key as it was |
| Redis.Remove | src/main/java/com/hmdp/utils/CacheClient.java:123-125 | DEL removes the key and leaves every other key as it was |
| Redis.Incremented | src/main/java/com/hmdp/utils/RedisIdWorker.java:41 | INCR counts an absent key from 1, adds one to any 64-bit counter (negative ones too) and keeps its TTL; it fails exactly on a non-counter or a counter at Long.MAX_VALUE |
| Redis.Live | src/main/java/com/hmdp/utils/CacheClient.java:62 | at an instant, exactly the keys whose TTL has not run out remain, unchanged |
| Redis.RedisStore.Get | src/main/java/com/hmdp/utils/CacheClient.java:46 | GET on the store object returns Lookup of its map |
| Redis.RedisStore.Set | src/main/java/com/hmdp/utils/CacheClient.java:39 | SET without TTL updates the map as Put with no expiry |
| Redis.RedisStore.SetEx | src/main/java/com/hmdp/utils/CacheClient.java:30 | SET with a TTL updates the map as Put with the TTL's deadline |
| Redis.RedisStore.SetNx | src/main/java/com/hmdp/utils/CacheClient.java:119 | SET NX succeeds exactly when the key was absent and then writes the value with its lease; otherwise nothing changes |
| Redis.RedisStore.Del | src/main/java/com/hmdp/utils/CacheClient.java:124 | DEL updates the map as Remove |
| Redis.RedisStore.Incr | src/main/java/com/hmdp/utils/RedisIdWorker.java:41 | INCR on the store object follows Incremented, failing without a change |
| Redis.RedisStore.Expire | src/main/java/com/hmdp/utils/CacheClient.java:30 | the store dropping what has expired removes exactly the keys whose TTL has run out, and keeps the rest unchanged |
| IdWorker.Unsigned | src/main/java/com/hmdp/utils/RedisIdWorker.java:43 | a long's bit pattern read unsigned is below 2^64 and a non-negative long is its own pattern |
| IdWorker.Signed | src/main/java/com/hmdp/utils/RedisIdWorker.java:43 | a bit pattern below 2^63 is the long of that value |
| IdWorker.WrapFits | src/main/java/com/hmdp/utils/RedisIdWorker.java:36 | `nowSecond - BEGIN_TIMESTAMP` does not wrap when it fits in a long |
| IdWorker.OrLow | src/main/java/com/hmdp/utils/RedisIdWorker.java:43 | OR-ing a value below 2^k into a multiple of 2^k is addition (induction on k) |
| IdWorker.OrBelow | src/main/java/com/hmdp/utils/RedisIdWorker.java:43 | OR of two values below 2^k stays below 2^k, so `|` on longs stays a long |
| IdWorker.ComposeValue | src/main/java/com/hmdp/utils/RedisIdWorker.java:43 | with a timestamp below 2^31 and a counter below 2^32, `timestamp << 32 \| counter` is timestamp·2^32 + counter |
| IdWorker.ComposeRoundTrip | src/main/java/com/hmdp/utils/RedisIdWorker.java:43 | within those bounds `id >> 32` gives back the timestamp and the low 32 bits the counter |
| IdWorker.ComposeNext | src/main/java/com/hmdp/utils/RedisIdWorker.java:43 | in one second, the next counter value gives the next id |
| IdWorker.ComposeCounterMonotone | src/main/java/com/hmdp/utils/RedisIdWorker.java:43 | in one second, a larger counter gives a larger id |
| IdWorker.ComposeTimeMonotone | src/main/java/com/hmdp/utils/RedisIdWorker.java:43 | a later second gives a larger id whatever the counters |
| IdWorker.ComposeInjective | src/main/java/com/hmdp/utils/RedisIdWorker.java:43 | within the bounds, distinct (second, counter) pairs give distinct ids |
| IdWorker.CounterOverflowCollides | src/main/java/com/hmdp/utils/RedisIdWorker.java:43 | a counter past 2^32 runs into the timestamp bits: second 0 with counter 2^32+1 has the id of second 1 with counter 1 |
| IdWorker.NextIdSpec | src/main/java/com/hmdp/utils/RedisIdWorker.java:32-44 | nextId succeeds exactly when `icr:<prefix>:<date>` is absent or a counter below Long.MAX_VALUE; it then adds one to that counter only and returns the composed id; an INCR error leaves the store unchanged |
| IdWorker.NextIdDecodes | src/main/java/com/hmdp/utils/RedisIdWorker.java:36-43 | with the day's key absent or a counter, nextId succeeds and its id decodes to the seconds since 2022-01-01 and the day's counter after the INCR |
| IdWorker.NextIdSuccessive | src/main/java/com/hmdp/utils/RedisIdWorker.java:41-43 | two calls in one second with one prefix both succeed and give consecutive ids |
| IdWorker.NextIdAcrossPrefixes | src/main/java/com/hmdp/utils/RedisIdWorker.java:41-43 | two calls in one second on prefixes with different counters both succeed and give equal ids exactly when the counters were equal |
| IdWorker.NextIdLaterSecond | src/main/java/com/hmdp/utils/RedisIdWorker.java:36-43 | both calls succeed, and the id taken in the later second is larger |
| IdWorker.RedisIdWorker.NextId | src/main/java/com/hmdp/utils/RedisIdWorker.java:32-44 | the method's id and new store are NextIdSpec's, so it fails exactly when INCR does |
| SimpleLock.TryLockSpec | src/main/java/com/hmdp/utils/SimpleRedisLock.java:34-42 | acquiring succeeds exactly when the lock key is absent and then holds the caller's token with the lease; a failure writes nothing; no other key changes |
| SimpleLock.UnlockSpec | src/main/java/com/hmdp/utils/SimpleRedisLock.java:48-60 | release deletes the key exactly when it holds the caller's token and otherwise changes nothing |
| SimpleLock.AtMostOneAcquires | src/main/java/com/hmdp/utils/SimpleRedisLock.java:39-41 | of two successive attempts on one lock, at most one succeeds |
| SimpleLock.ForeignUnlockKeepsLock | src/main/java/com/hmdp/utils/SimpleRedisLock.java:57-59 | a release by anyone but the holder leaves the holder's lock in place |
| SimpleLock.AcquireReleaseRestores | src/main/java/com/hmdp/utils/SimpleRedisLock.java:34-59 | acquire then release with one token gives back the original store |
| SimpleLock.LateReleaseAfterExpiry | src/main/java/com/hmdp/utils/SimpleRedisLock.java:40-59 | after A's lease runs out and B acquires, A's late release does not remove B's lock |
| SimpleLock.TokenPerThread | src/main/java/com/hmdp/utils/SimpleRedisLock.java:36 | threads of one process get distinct tokens |
| SimpleLock.TokenPerProcess | src/main/java/com/hmdp/utils/SimpleRedisLock.java:24 | processes with distinct UUID prefixes (all of one length) never share a token, whatever their thread ids |
| SimpleLock.SimpleRedisLock.TryLock | src/main/java/com/hmdp/utils/SimpleRedisLock.java:34-42 | the method's result and new store are TryLockSpec's |
| SimpleLock.SimpleRedisLock.Unlock | src/main/java/com/hmdp/utils/SimpleRedisLock.java:48-60 | the method's new store is UnlockSpec's |
| Cache.Decoded | src/main/java/com/hmdp/utils/CacheClient.java:48-52 | a non-blank cached value is never answered as null; shop JSON gives its shop; a `RedisData` document gives a Shop with no property set |
| Cache.FlagLock | src/main/java/com/hmdp/utils/CacheClient.java:118-121 | the flag lock holds exactly when the key was absent, and then writes "1" with a ten-second lease; otherwise nothing changes |
| Cache.PassThroughSpec | src/main/java/com/hmdp/utils/CacheClient.java:42-70 | reads "cache:shop:"+id whatever the prefix; a true miss is null with no load; a blank value loads; only `prefix+id` is written (marker with TTL, or a logical-expiry record); a non-positive TTL on the marker raises |
| Cache.LogicalExpireSpec | src/main/java/com/hmdp/utils/CacheClient.java:74-116 | never changes the store and never submits a rebuild; blank or absent is null; a record gives its data; any other value raises |
| Cache.RebuildSpec | src/main/java/com/hmdp/utils/CacheClient.java:98-111 | the rebuild task's `finally` deletes the very key it has just written |
| Cache.PassThroughMissNeverLoads | src/main/java/com/hmdp/utils/CacheClient.java:54-56 | a shop the database has is answered null when the cache has no entry, and the loader is never called |
| Cache.PassThroughMarkerReloads | src/main/java/com/hmdp/utils/CacheClient.java:58-64 | with the shop prefix, the null marker does not stop the loader from running again before the marker expires |
| Cache.PassThroughReadsBackEmpty | src/main/java/com/hmdp/utils/CacheClient.java:67 | a loaded shop is cached as a `RedisData` record that the next pass-through read decodes as an empty Shop |
| Cache.PassThroughPrefixIgnored | src/main/java/com/hmdp/utils/CacheClient.java:44-46 | under any other prefix, what pass-through writes is never read back and every call loads again |
| Cache.LogicalExpireNeverRebuilds | src/main/java/com/hmdp/utils/CacheClient.java:94 | an expired record is never rebuilt, so every later read answers the same stale data |
| Cache.PassThroughFixed | src/main/java/com/hmdp/utils/CacheClient.java:42-70 | the intended pass-through loads exactly on a true miss of the key it writes, and otherwise changes nothing |
| Cache.PassThroughFixedCaches | src/main/java/com/hmdp/utils/CacheClient.java:42-70 | after a load, every read before the TTL ends gives the same answer (shop or null) without the loader |
| Cache.LogicalExpireFixed | src/main/java/com/hmdp/utils/CacheClient.java:74-116 | the intended logical expiry never loads and writes nothing but its own lock key |
| Cache.RebuildFixed | src/main/java/com/hmdp/utils/CacheClient.java:98-111 | the intended rebuild leaves the fresh record in place and the lock released |
| Cache.LogicalExpireFixedRefreshes | src/main/java/com/hmdp/utils/CacheClient.java:74-116 | a stale read with a free lock submits the rebuild; after it runs, reads before the new expiry get the fresh shop with no rebuild |
| Cache.CacheClient.Set | src/main/java/com/hmdp/utils/CacheClient.java:29-31 | stores the shop JSON with the TTL converted to seconds |
| Cache.CacheClient.SetWithLogicalExpire | src/main/java/com/hmdp/utils/CacheClient.java:33-40 | stores a `RedisData` record expiring `time` from now, with no TTL on the key |
| Cache.CacheClient.QueryWithPassThrough | src/main/java/com/hmdp/utils/CacheClient.java:42-70 | the method's reply and new store are PassThroughSpec's |
| Cache.CacheClient.QueryWithLogicalExpire | src/main/java/com/hmdp/utils/CacheClient.java:74-116 | the method's reply, submission and new store are LogicalExpireSpec's |
| Cache.CacheClient.RunRebuild | src/main/java/com/hmdp/utils/CacheClient.java:98-111 | the submitted task's effect is RebuildSpec's |
| Cache.CacheClient.TryLock | src/main/java/com/hmdp/utils/CacheClient.java:118-121 | the method's result and new store are FlagLock's |
| Cache.CacheClient.Unlock | src/main/java/com/hmdp/utils/CacheClient.java:123-125 | deletes the key and nothing else |
| ShopService.ShopPassThrough | src/main/java/com/hmdp/service/impl/ShopServiceImpl.java:176-202 | a non-blank entry is decoded with no database read; a true miss is null; a blank entry reads tb_shop and caches the row for the shop TTL or the marker for the null TTL |
| ShopService.ShopLogicalExpire | src/main/java/com/hmdp/service/impl/ShopServiceImpl.java:76-115 | absent or blank is null; a record gives its data; a rebuild is submitted exactly when the record has expired and "lock:shop:"+id was free, and only that lock is written |
| ShopService.SaveShop | src/main/java/com/hmdp/service/impl/ShopServiceImpl.java:227-235 | writes the row as a record expiring `minutes` from now under "cache:shop"+id (no colon) and nothing else |
| ShopService.ShopRebuild | src/main/java/com/hmdp/service/impl/ShopServiceImpl.java:97-112 | the rebuild task writes the row as a record with a 30-minute logical deadline under the save key, changes no other key, and always releases "lock:shop:"+id |
| ShopService.MutexQuery | src/main/java/com/hmdp/service/impl/ShopServiceImpl.java:122-169 | hits and true misses leave the store alone; a blank entry with a free mutex loads from the database, and its entry expires the matching TTL from the call; past the cache check the mutex key is gone on every exit; a load answers the row and caches its JSON for CACHE_SHOP_TTL minutes, or "" for CACHE_NULL_TTL minutes, counted from the call or a later retry; no other key changes |
| ShopService.UpdateRow | src/main/java/com/hmdp/service/impl/ShopServiceImpl.java:250 | updateById overwrites only the given non-null columns of the row with that id and leaves other rows alone |
| ShopService.UpdateSpec | src/main/java/com/hmdp/service/impl/ShopServiceImpl.java:244-254 | update always answers ok, updates the row and evicts "cache:shop:"+id, even for a null id |
| ShopService.QueryByIdSpec | src/main/java/com/hmdp/service/impl/ShopServiceImpl.java:47-66 | queryById fails exactly when the logical-expiry read is null, raises exactly when it raises, and otherwise answers its shop |
| ShopService.SaveKeyNeverRead | src/main/java/com/hmdp/service/impl/ShopServiceImpl.java:234 | the key saveShop2Redis writes is never a key any read path consults |
| ShopService.ShopKeysDistinct | src/main/java/com/hmdp/service/impl/ShopServiceImpl.java:78-138 | the cache key, both lock keys and the save key of one id are distinct |
| ShopService.NullEvictKeyNoShopKey | src/main/java/com/hmdp/service/impl/ShopServiceImpl.java:252 | the key evicted for a null id is no shop's cache key |
| ShopService.RebuildNeverRefreshes | src/main/java/com/hmdp/service/impl/ShopServiceImpl.java:234 | after a stale read and its rebuild, the entry is unchanged and the next read is just as stale and submits again |
| ShopService.MutexDeletesForeignLock | src/main/java/com/hmdp/service/impl/ShopServiceImpl.java:163-166 | a query that fails to take the mutex still deletes the holder's lock on its way out |
| ShopService.UpdateThenQueryByIdFails | src/main/java/com/hmdp/service/impl/ShopServiceImpl.java:244-254 | after an update, queryById of that shop fails whatever the row holds |
| ShopService.UpdateThenPassThroughNull | src/main/java/com/hmdp/service/impl/ShopServiceImpl.java:176-202 | after an update, pass-through answers null without reading the updated row |
| ShopService.UpdateWithoutId | src/main/java/com/hmdp/service/impl/ShopServiceImpl.java:246-248 | an update with a null id still answers ok, changes no row and evicts no shop's entry |
| ShopService.PassThroughHitAfterLoad | src/main/java/com/hmdp/service/impl/ShopServiceImpl.java:196-199 | a loaded row is served from the cache until its TTL ends |
| ShopService.PassThroughMarkerReloads | src/main/java/com/hmdp/service/impl/ShopServiceImpl.java:184-194 | for a missing row, the marker does not stop the table from being read again before it expires |
| ShopService.SaveShopFixed | src/main/java/com/hmdp/service/impl/ShopServiceImpl.java:227-235 | the intended save writes the record where the read path reads |
| ShopService.ShopRebuildFixed | src/main/java/com/hmdp/service/impl/ShopServiceImpl.java:97-112 | the intended rebuild always releases its lock |
| ShopService.RebuildFixedRefreshes | src/main/java/com/hmdp/service/impl/ShopServiceImpl.java:97-112 | with the intended save, reads for the next 30 minutes get the current row and submit nothing |
| ShopService.MutexFixed | src/main/java/com/hmdp/service/impl/ShopServiceImpl.java:122-169 | the intended mutex query answers a cache hit with the decoded entry and a true miss with null, writing nothing in either case |
| ShopService.MutexFixedKeepsForeignLock | src/main/java/com/hmdp/service/impl/ShopServiceImpl.java:137-146 | with the intended release, another caller's live lock survives every retry (induction on the retries) |
| ShopService.ShopServiceImpl.QueryById | src/main/java/com/hmdp/service/impl/ShopServiceImpl.java:47-66 | the method's response, submission and new store are QueryByIdSpec's |
| ShopService.ShopServiceImpl.QueryWithLogicalExpire | src/main/java/com/hmdp/service/impl/ShopServiceImpl.java:76-115 | the method's reply, submission and new store are ShopLogicalExpire's |
| ShopService.ShopServiceImpl.RunRebuild | src/main/java/com/hmdp/service/impl/ShopServiceImpl.java:97-112 | the submitted task's effect is ShopRebuild's |
| ShopService.ShopServiceImpl.QueryWithMutex | src/main/java/com/hmdp/service/impl/ShopServiceImpl.java:122-169 | the recursive method's reply and new store are MutexQuery's |
| ShopService.ShopServiceImpl.QueryWithPassThrough | src/main/java/com/hmdp/service/impl/ShopServiceImpl.java:176-202 | the method's reply and new store are ShopPassThrough's |
| ShopService.ShopServiceImpl.TryLock | src/main/java/com/hmdp/service/impl/ShopServiceImpl.java:209-212 | the method's result and new store are FlagLock's |
| ShopService.ShopServiceImpl.Unlock | src/main/java/com/hmdp/service/impl/ShopServiceImpl.java:218-220 | deletes the key and nothing else |
| ShopService.ShopServiceImpl.SaveShop2Redis | src/main/java/com/hmdp/service/impl/ShopServiceImpl.java:227-235 | the method's new store is SaveShop's |
| ShopService.ShopServiceImpl.Update | src/main/java/com/hmdp/service/impl/ShopServiceImpl.java:244-254 | the method's response, store and table are UpdateSpec's |
| VoucherOrders.CreateVoucherSpec | src/main/java/com/hmdp/service/impl/VoucherOrderServiceImpl.java:270-295 | with no logged-in user it raises; "already ordered" exactly when the thread's user has an order for the voucher; "out of stock" exactly when there is no stock; otherwise one unit of stock becomes one order row; every failure writes nothing |
| VoucherOrders.CreateKeepsStockValid | src/main/java/com/hmdp/service/impl/VoucherOrderServiceImpl.java:283-287 | the `stock > 0` guard keeps every stock count non-negative |
| VoucherOrders.CreateConserves | src/main/java/com/hmdp/service/impl/VoucherOrderServiceImpl.java:283-292 | stock plus orders stays constant for every voucher |
| VoucherOrders.SoldAfterInsert | src/main/java/com/hmdp/service/impl/VoucherOrderServiceImpl.java:292 | inserting an order row adds one sale to its voucher and none to any other |
| VoucherOrders.CreateKeepsOnePerUser | src/main/java/com/hmdp/service/impl/VoucherOrderServiceImpl.java:275-280 | when the thread's user is the order's user, at most one order per (voucher, user) is kept |
| VoucherOrders.ForeignUserDuplicates | src/main/java/com/hmdp/service/impl/VoucherOrderServiceImpl.java:275 | a thread whose user is not the order's user stores a second order for the same (voucher, user) |
| VoucherOrders.IntValue | src/main/java/com/hmdp/service/impl/VoucherOrderServiceImpl.java:174 | `Long.intValue()` is a signed 32-bit value congruent to the long modulo 2^32 |
| VoucherOrders.SeckillSpec | src/main/java/com/hmdp/service/impl/VoucherOrderServiceImpl.java:164-186 | no user raises with no write; a script result whose int value is 0 sets `proxy` and answers the id from counter "order:"; any other result is "not eligible" with `proxy` untouched and only the "order" counter moved; no key but the two counters ever changes |
| VoucherOrders.SeckillCountersDiffer | src/main/java/com/hmdp/service/impl/VoucherOrderServiceImpl.java:168-182 | "order" and "order:" count on different keys |
| VoucherOrders.SeckillIdIsNotTheOrderId | src/main/java/com/hmdp/service/impl/VoucherOrderServiceImpl.java:168-185 | the id returned equals the id given to the script exactly when the two counters happened to be equal |
| VoucherOrders.ScriptResultTruncated | src/main/java/com/hmdp/service/impl/VoucherOrderServiceImpl.java:174 | a script result of 2^32 reads as 0 and admits |
| VoucherOrders.RLockTry | src/main/java/com/hmdp/service/impl/VoucherOrderServiceImpl.java:139-141 | a free lock is taken with hold count 1; the holder re-enters with its count one higher; another holder's lock is refused with no write |
| VoucherOrders.RLockRelease | src/main/java/com/hmdp/service/impl/VoucherOrderServiceImpl.java:152 | unlock succeeds exactly for the current holder, and otherwise raises |
| VoucherOrders.RLockRoundTrip | src/main/java/com/hmdp/service/impl/VoucherOrderServiceImpl.java:139-152 | taking a free lock and releasing it restores the store |
| VoucherOrders.HandleSpec | src/main/java/com/hmdp/service/impl/VoucherOrderServiceImpl.java:134-154 | createVoucher runs whether or not the lock was taken, only once `proxy` is set; the handler returns normally exactly when it took the lock, `proxy` was set and createVoucher returned |
| VoucherOrders.HandleIgnoresRefusedLock | src/main/java/com/hmdp/service/impl/VoucherOrderServiceImpl.java:141-153 | a lock held by someone else does not stop createVoucher, and the unlock then raises |
| VoucherOrders.Without | src/main/java/com/hmdp/service/impl/VoucherOrderServiceImpl.java:123-124 | removing an id from the pending list keeps exactly the other ids, in increasing order |
| VoucherOrders.NextUndelivered | src/main/java/com/hmdp/service/impl/VoucherOrderServiceImpl.java:77-85 | a ">" read returns the next undelivered entry and makes it pending, or nothing when all were delivered |
| VoucherOrders.OldestPending | src/main/java/com/hmdp/service/impl/VoucherOrderServiceImpl.java:108-116 | a "0" read returns the smallest pending id, or nothing exactly when none is pending |
| VoucherOrders.Ack | src/main/java/com/hmdp/service/impl/VoucherOrderServiceImpl.java:92-93 | an acknowledgement removes exactly that id from the pending list |
| VoucherOrders.Process | src/main/java/com/hmdp/service/impl/VoucherOrderServiceImpl.java:118-124 | a message is handled and acknowledged exactly when handling returned normally |
| VoucherOrders.AckOnlyAfterSuccess | src/main/java/com/hmdp/service/impl/VoucherOrderServiceImpl.java:121-124 | a pending message leaves the pending list exactly when its handling succeeded |
| VoucherOrders.RecoverSpec | src/main/java/com/hmdp/service/impl/VoucherOrderServiceImpl.java:102-130 | the pending-list loop handles the oldest pending message, acknowledging it only when handling returned, and reads again; it exits exactly when the list is empty and never adds to it |
| VoucherOrders.RunStepSpec | src/main/java/com/hmdp/service/impl/VoucherOrderServiceImpl.java:72-99 | one pass delivers the next entry, if any; a handled message is acknowledged and the pass returns; a failing one stays pending and the pass goes through the pending list, returning only once that list is empty |
| VoucherOrders.RunSpec | src/main/java/com/hmdp/service/impl/VoucherOrderServiceImpl.java:72-99 | passes stop after one whose recovery did not return; while every recovery returns, the next n entries, or all of them, are delivered in append order |
| VoucherOrders.RecoverOldestFirst | src/main/java/com/hmdp/service/impl/VoucherOrderServiceImpl.java:106-125 | what is still pending after recovery is a suffix of what was pending: messages are taken from the oldest and none is skipped (induction on the passes) |
| VoucherOrders.RecoverStuck | src/main/java/com/hmdp/service/impl/VoucherOrderServiceImpl.java:102-130 | when handling cannot succeed (`proxy` null or no logged-in user), the pending loop never gets past the oldest message (induction on the passes) |
| VoucherOrders.RunStaysStuck | src/main/java/com/hmdp/service/impl/VoucherOrderServiceImpl.java:94-97 | once a pass has not returned from handlePendingList, further passes change nothing (induction on the passes) |
| VoucherOrders.RunStopsAtFirstFailure | src/main/java/com/hmdp/service/impl/VoucherOrderServiceImpl.java:72-130 | when handling cannot succeed, the run stops at its first message: it stays pending and no later message is read |
| VoucherOrders.CreateVoucherFixed | src/main/java/com/hmdp/service/impl/VoucherOrderServiceImpl.java:270-295 | the intended createVoucher never raises for want of a user, and refuses exactly when the order's own user already ordered |
| VoucherOrders.CreateFixedKeepsOnePerUser | src/main/java/com/hmdp/service/impl/VoucherOrderServiceImpl.java:275-280 | the intended check keeps one order per (voucher, user) on every thread |
| VoucherOrders.HandleFixed | src/main/java/com/hmdp/service/impl/VoucherOrderServiceImpl.java:141-144 | the intended handler returns without writing when another holder has the user's lock |
| VoucherOrders.HandleFixedRespectsLock | src/main/java/com/hmdp/service/impl/VoucherOrderServiceImpl.java:141-144 | with the intended handler, a lock held by another holder stops the order and nothing is written |
| VoucherOrders.HandleFixedSucceeds | src/main/java/com/hmdp/service/impl/VoucherOrderServiceImpl.java:134-154 | with the intended check, a consumer thread with no user handles a new order normally and leaves the lock free |
| VoucherOrders.SeckillFixed | src/main/java/com/hmdp/service/impl/VoucherOrderServiceImpl.java:164-186 | the intended seckill answers with the id it queued, and only that counter moves |
| VoucherOrders.SeckillFixedReturnsQueuedId | src/main/java/com/hmdp/service/impl/VoucherOrderServiceImpl.java:168-185 | the intended seckill admits whenever the code as written does, returns the queued id and leaves the "order:" counter alone |
| VoucherOrders.OrderStream.ReadNew | src/main/java/com/hmdp/service/impl/VoucherOrderServiceImpl.java:77-80 | the method's result and new stream state are NextUndelivered's |
| VoucherOrders.OrderStream.ReadPending | src/main/java/com/hmdp/service/impl/VoucherOrderServiceImpl.java:108-111 | returns OldestPending of the stream state |
| VoucherOrders.OrderStream.Acknowledge | src/main/java/com/hmdp/service/impl/VoucherOrderServiceImpl.java:92-93 | the method's new stream state is Ack's |
| VoucherOrders.VoucherOrderServiceImpl.CreateVoucher | src/main/java/com/hmdp/service/impl/VoucherOrderServiceImpl.java:270-295 | the method's result and new tables are CreateVoucherSpec's |
| VoucherOrders.VoucherOrderServiceImpl.SeckillVoucher | src/main/java/com/hmdp/service/impl/VoucherOrderServiceImpl.java:164-186 | the method's answer, store and `proxy` are SeckillSpec's; the tables are untouched |
| VoucherOrders.VoucherOrderServiceImpl.HandleVoucherOrder | src/main/java/com/hmdp/service/impl/VoucherOrderServiceImpl.java:134-154 | the method's outcome, tables and store are HandleSpec's |
| VoucherOrders.VoucherOrderServiceImpl.HandlePendingList | src/main/java/com/hmdp/service/impl/VoucherOrderServiceImpl.java:102-130 | the loop's final state and exit flag are RecoverSpec's |
| VoucherOrders.VoucherOrderServiceImpl.RunOnce | src/main/java/com/hmdp/service/impl/VoucherOrderServiceImpl.java:74-98 | one pass of the run loop ends in RunStepSpec's state, and says whether it returned |
| VoucherOrders.VoucherOrderServiceImpl.Run | src/main/java/com/hmdp/service/impl/VoucherOrderServiceImpl.java:72-99 | up to `rounds` passes of the run loop end in RunSpec's state, stopping where a recovery does not return |

## Left out

- JSON and bean mapping is not modelled as text. A stored JSON document is kept as the value it encodes (`ShopJson`, `RecordJson`), so encoding is a constructor and decoding a match. A Shop's columns are an uninterpreted map. The generic `R` and `ID` of CacheClient are fixed to Shop and Long.
- Threads and executors are not modelled. The rebuild task that `executorService.submit` runs is a separate step (`RunRebuild`), and the single consumer thread is a method called by the caller. Interleavings of concurrent callers are not modelled; lemmas such as AtMostOneAcquires and LateReleaseAfterExpiry state sequential orders of calls.
- `LocalDateTime.now()`, `Thread.currentThread().getId()`, `UserHolder.getUser()` and `UUID.randomUUID()` are parameters. Time is whole milliseconds. The date rendering `yyyy:MM:dd` is an input string of the clock.
- RedisConstants is not part of this model. CACHE_NULL_TTL and CACHE_SHOP_TTL are constructor parameters of ShopServiceImpl, positive by type.
- The bodies of `unlock.lua` and `seckill.lua` are not part of this model. The unlock script is taken as the atomic compare-and-delete its commented-out Java predecessor describes. The admission script's answer is a parameter of seckillVoucher. Its stock and order-set checks, and the stream entry it appends, are not modelled: the stream's entries are given to the consumer.
- Redisson: the lock is a hash of holder and hold count, with no watchdog lease and no pub/sub wake-up. `tryLock()` does not wait.
- The stream is reduced to one group and one consumer, with ids as positions. Reads block for at most two seconds in the source; here an empty read returns at once.
- Run, handlePendingList and queryWithMutex loop or recurse without bound in the source. Here they take a `rounds` or `fuel` bound.
  - Running out of fuel in queryWithMutex is an exception, as a stack overflow would be.
  - A handlePendingList that still has messages pending after `fuel` passes is taken not to return, and the run loop makes no further pass. A recovery that would drain only after more passes is not modelled.
- The database is in-memory: tb_shop, tb_seckill_voucher stock and tb_voucher_order. A `@Transactional` rollback restores the tables as they were. Database errors other than a duplicate order id are not modelled.
- SimpleLock.SimpleRedisLock.TryLock: requires a positive timeout. The store's rejection of a non-positive lease, an exception in the source, is not modelled.
- Cache.CacheClient.Set: requires a positive TTL in seconds. The store's rejection of a non-positive TTL is not modelled here, though it is in Cache.PassThroughSpec.
- Long-typed ids in keys are rendered as decimal text. Ids are non-null everywhere except `update`, where a null id is rendered "null". A null id passed to a read path, which would read "cache:shop:null", is not modelled.
- `TimeUnit` is limited to SECONDS, MINUTES, HOURS and DAYS. CacheClient.set and setWithLogicalExpire accept any unit; MILLISECONDS and the other sub-second units, which go to PSETEX or truncate in `toSeconds`, are not modelled.
- seckillVoucher reads the clock once for both nextId calls. A request whose two calls straddle a second or a day boundary is not modelled.

## Findings

| source | as written | input that shows it | evidently intended | confidence | as-written member | corrected member |
|---|---|---|---|---|---|---|
| src/main/java/com/hmdp/utils/CacheClient.java:54-56 | a key with no entry at all answers null without calling the fallback | empty store, a shop the database has | load on a true miss; the empty marker is the known miss | not executed | Cache.PassThroughMissNeverLoads | Cache.PassThroughFixedCaches |
| src/main/java/com/hmdp/utils/CacheClient.java:46 | reads "cache:shop:"+id instead of `prefixkey + id` | prefix "shop:" with the blank marker under "cache:shop:1" | read the key that is written | not executed | Cache.PassThroughPrefixIgnored | Cache.PassThroughFixedCaches |
| src/main/java/com/hmdp/utils/CacheClient.java:67 | a loaded shop is cached as a logical-expiry record, which pass-through decodes as an empty Shop | blank marker, then a load, then a second read | cache the shop JSON with the TTL | not executed | Cache.PassThroughReadsBackEmpty | Cache.PassThroughFixedCaches |
| src/main/java/com/hmdp/utils/CacheClient.java:94 | the rebuild lock is taken on the cache key itself, which is present, so it never holds and no rebuild ever runs | any expired record | a lock key of its own | not executed | Cache.LogicalExpireNeverRebuilds | Cache.LogicalExpireFixedRefreshes |
| src/main/java/com/hmdp/service/impl/ShopServiceImpl.java:234 | saveShop2Redis writes "cache:shop"+id, with no colon, a key no read path consults | an expired record for id 1 and a free lock: the rebuild writes "cache:shop1" | write "cache:shop:"+id | not executed | ShopService.RebuildNeverRefreshes | ShopService.RebuildFixedRefreshes |
| src/main/java/com/hmdp/service/impl/ShopServiceImpl.java:163-166 | `finally` deletes the mutex even when this call failed to take it | another caller holds "key:shop:1" while the entry is blank | release only a lock this call took | not executed | ShopService.MutexDeletesForeignLock | ShopService.MutexFixedKeepsForeignLock |
| src/main/java/com/hmdp/service/impl/VoucherOrderServiceImpl.java:275 | createVoucher reads the user from the thread, which on the consumer thread has no user (an exception on every message), and elsewhere may be a different user | the consumer with `UserHolder` empty; or thread user 8 with an order for user 7 | check the order's own user | not executed | VoucherOrders.RecoverStuck, VoucherOrders.RunStopsAtFirstFailure, VoucherOrders.ForeignUserDuplicates | VoucherOrders.CreateFixedKeepsOnePerUser, VoucherOrders.HandleFixedSucceeds |
| src/main/java/com/hmdp/service/impl/VoucherOrderServiceImpl.java:142-144 | a refused per-user lock is only logged; the order is still created and the unlock then raises | "lock:order:7" held by another holder | return without creating | not executed | VoucherOrders.HandleIgnoresRefusedLock | VoucherOrders.HandleFixedRespectsLock |
| src/main/java/com/hmdp/service/impl/VoucherOrderServiceImpl.java:182 | the id returned comes from a second counter ("order:"), not the id given to the script | counters "order" at 5 and "order:" at 0 | return the queued order id | not executed | VoucherOrders.SeckillIdIsNotTheOrderId | VoucherOrders.SeckillFixedReturnsQueuedId |
