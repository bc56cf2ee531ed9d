/**
 * CacheClient: cache-aside reads of a Shop through the store, with a
 * fallback loader for the database.  Two policies: pass-through (an empty
 * string marks a known miss) and logical expiry (the entry never expires in
 * the store; a `RedisData` record carries its own expiry, and a stale entry
 * is answered at once while one rebuild runs behind a flag lock).
 *
 * The functions here follow the code as written, including where it reads or
 * locks a different key than the one it writes.  Corrected variants, used
 * only by the lemmas that state what the code evidently intends, come last.
 */
module Cache {
  import opened Strings
  import opened Redis

  /** What a query hands back: a shop, null, or an exception. */
  datatype Reply = Found(shop: Shop) | Null | Raised

  /**
   * A query's reply, the store afterwards, whether the database loader was
   * called, and whether a rebuild task was handed to the executor.
   */
  datatype Outcome = Outcome(reply: Reply, store: Store, loaded: bool, rebuild: bool)

  /** The key the shop read paths consult: "cache:shop:" + id. */
  function ShopKey(id: int): string {
    "cache:shop:" + LongText(id)
  }

  /** A nullable shop as a reply. */
  function ReplyOf(data: Option<Shop>): Reply {
    if data.Some? then Found(data.value) else Null
  }

  /** `JSONUtil.toBean(json, Shop.class)` on a non-blank cached value. */
  function Decoded(p: Payload): (r: Reply)
    ensures r != Null
    ensures p.ShopJson? ==> r == Found(p.shop)
    ensures p.RecordJson? ==> r == Found(EmptyShop)
  {
    match ShopOf(p)
    case Some(shop) => Found(shop)
    case None => Raised
  }

  /** The `RedisData` document `setWithLogicalExpire` writes: the value and `now + time` as its expiry. */
  function LogicalRecord(value: Option<Shop>, time: int, unit: TimeUnit, now: int): Payload {
    RecordJson(value, Deadline(now, ToSeconds(time, unit)))
  }

  /** The lock value and lease of the private `trylock(key)` helpers. */
  const FLAG: string := "1"
  const FLAG_LEASE: int := 10

  /**
   * `trylock(key)`: SET key "1" NX EX 10.  It holds exactly when the key
   * was absent; it writes the flag with a ten-second lease, or nothing.
   */
  function FlagLock(s: Store, key: string, now: int): (r: (bool, Store))
    ensures r.0 <==> key !in s
    ensures r.0 ==> key in r.1 && r.1[key] == Entry(Text(FLAG), Some(Deadline(now, FLAG_LEASE)))
    ensures forall k :: k != key ==> (k in r.1 <==> k in s) && (k in s ==> r.1[k] == s[k])
    ensures !r.0 ==> r.1 == s
  {
    if key in s then (false, s) else (true, Put(s, key, Text(FLAG), Some(Deadline(now, FLAG_LEASE))))
  }

  /**
   * queryWithPassThrough as written: it reads the fixed key "cache:shop:" + id
   * whatever the prefix, answers a true miss with null, and calls the loader
   * only on a blank value.  It writes only under `prefix + id`: the empty
   * marker with a TTL when the loader finds nothing, or a logical-expiry
   * record (no TTL) when it finds the shop.
   */
  function PassThroughSpec(s: Store, prefix: string, id: int, loader: int -> Option<Shop>,
                           time: int, unit: TimeUnit, now: int): (o: Outcome)
    ensures !o.rebuild
    ensures o.loaded <==> ShopKey(id) in s && IsBlankValue(s[ShopKey(id)].payload)
    ensures !o.loaded ==> o.store == s
    ensures ShopKey(id) !in s ==> o.reply == Null
    ensures ShopKey(id) in s && !IsBlankValue(s[ShopKey(id)].payload) ==> o.reply == Decoded(s[ShopKey(id)].payload)
    ensures forall k :: k != prefix + LongText(id) ==> (k in o.store <==> k in s) && (k in s ==> o.store[k] == s[k])
    ensures o.loaded && loader(id).Some? ==>
      o.reply == Found(loader(id).value)
      && o.store == Put(s, prefix + LongText(id), LogicalRecord(loader(id), time, unit, now), None)
    ensures o.loaded && loader(id).None? && ToSeconds(time, unit) > 0 ==>
      o.reply == Null
      && o.store == Put(s, prefix + LongText(id), Text(""), Some(Deadline(now, ToSeconds(time, unit))))
    ensures o.loaded && loader(id).None? && ToSeconds(time, unit) <= 0 ==> o.reply == Raised && o.store == s
  {
    var key := prefix + LongText(id);
    var json := Lookup(s, ShopKey(id));
    if json.Some? && !IsBlankValue(json.value) then Outcome(Decoded(json.value), s, false, false)
    else if json.None? then Outcome(Null, s, false, false)
    else
      match loader(id)
      case None =>
        if ToSeconds(time, unit) > 0
        then Outcome(Null, Put(s, key, Text(""), Some(Deadline(now, ToSeconds(time, unit)))), true, false)
        else Outcome(Raised, s, true, false)  // the store rejects a non-positive TTL
      case Some(shop) => Outcome(Found(shop), Put(s, key, LogicalRecord(Some(shop), time, unit, now), None), true, false)
  }

  /**
   * queryWithLogicalExpire as written: blank or absent gives null; a value
   * that is not a `RedisData` document raises; an unexpired record gives its
   * data.  An expired one gives its stale data after `trylock(key)` on the
   * cache key itself, which was just read as present: the lock never holds,
   * so no rebuild is ever submitted and the store never changes.
   */
  function LogicalExpireSpec(s: Store, prefix: string, id: int, now: int): (o: Outcome)
    ensures o.store == s && !o.loaded && !o.rebuild
    ensures var key := prefix + LongText(id);
      (key !in s || IsBlankValue(s[key].payload) ==> o.reply == Null)
      && (key in s && s[key].payload.RecordJson? ==> o.reply == ReplyOf(s[key].payload.data))
      && (key in s && !IsBlankValue(s[key].payload) && !s[key].payload.RecordJson? ==> o.reply == Raised)
  {
    var key := prefix + LongText(id);
    var json := Lookup(s, key);
    if json.None? || IsBlankValue(json.value) then Outcome(Null, s, false, false)
    else
      match RecordOf(json.value)
      case None => Outcome(Raised, s, false, false)
      case Some((data, expireTime)) =>
        if expireTime > now then Outcome(ReplyOf(data), s, false, false)
        else
          var (locked, s') := FlagLock(s, key, now);
          Outcome(ReplyOf(data), s', false, locked)
  }

  /**
   * The rebuild task queryWithLogicalExpire would submit: load, write a fresh
   * record under the key, and in `finally` delete the "lock" -- the same key,
   * so the fresh record is deleted with it.
   */
  function RebuildSpec(s: Store, key: string, id: int, loader: int -> Option<Shop>,
                       time: int, unit: TimeUnit, now: int): (r: Store)
    ensures r == Remove(s, key)
  {
    var written := Put(s, key, LogicalRecord(loader(id), time, unit, now), None);
    Remove(written, key)
  }

  // ----- what the code as written does to a caller -----

  /** A shop the database has is never returned when the cache has no entry at all: the loader is not even called. */
  lemma PassThroughMissNeverLoads(s: Store, prefix: string, id: int, loader: int -> Option<Shop>,
                                  time: int, unit: TimeUnit, now: int)
    requires ShopKey(id) !in s && loader(id).Some?
    ensures var o := PassThroughSpec(s, prefix, id, loader, time, unit, now);
      o.reply == Null && !o.loaded && o.store == s
  {}

  /**
   * With the shop prefix, the null marker does not stop the loader: a blank
   * entry makes every call before the marker expires go to the database again.
   */
  lemma PassThroughMarkerReloads(s: Store, id: int, loader: int -> Option<Shop>,
                                 time: int, unit: TimeUnit, now: int, later: int)
    requires ShopKey(id) in s && IsBlankValue(s[ShopKey(id)].payload)
    requires loader(id).None? && ToSeconds(time, unit) > 0
    requires now <= later < Deadline(now, ToSeconds(time, unit))
    ensures var first := PassThroughSpec(s, "cache:shop:", id, loader, time, unit, now);
      first.loaded && PassThroughSpec(Live(first.store, later), "cache:shop:", id, loader, time, unit, later).loaded
  {
    var first := PassThroughSpec(s, "cache:shop:", id, loader, time, unit, now);
    assert first.store[ShopKey(id)] == Entry(Text(""), Some(Deadline(now, ToSeconds(time, unit))));
    assert ShopKey(id) in Live(first.store, later);
  }

  /**
   * With the shop prefix, a loaded shop is cached as a logical-expiry record,
   * which the next pass-through read decodes as a Shop with no property set.
   */
  lemma PassThroughReadsBackEmpty(s: Store, id: int, loader: int -> Option<Shop>,
                                  time: int, unit: TimeUnit, now: int, later: int)
    requires ShopKey(id) in s && IsBlankValue(s[ShopKey(id)].payload)
    requires loader(id).Some? && loader(id).value != EmptyShop
    ensures var first := PassThroughSpec(s, "cache:shop:", id, loader, time, unit, now);
      var second := PassThroughSpec(first.store, "cache:shop:", id, loader, time, unit, later);
      first.reply == Found(loader(id).value) && second.reply == Found(EmptyShop) && second.reply != first.reply
  {
    var first := PassThroughSpec(s, "cache:shop:", id, loader, time, unit, now);
    assert first.store[ShopKey(id)].payload == LogicalRecord(loader(id), time, unit, now);
  }

  /**
   * Under any prefix but the shop one, what pass-through caches is never read
   * back: the key it reads keeps its blank value, so the loader runs on every call.
   */
  lemma PassThroughPrefixIgnored(s: Store, prefix: string, id: int, loader: int -> Option<Shop>,
                                 time: int, unit: TimeUnit, now: int, later: int)
    requires prefix != "cache:shop:"
    requires ShopKey(id) in s && IsBlankValue(s[ShopKey(id)].payload)
    ensures var first := PassThroughSpec(s, prefix, id, loader, time, unit, now);
      first.loaded && PassThroughSpec(first.store, prefix, id, loader, time, unit, later).loaded
  {
    var first := PassThroughSpec(s, prefix, id, loader, time, unit, now);
    PrefixesDiffer(prefix, "cache:shop:", LongText(id));
    assert first.store[ShopKey(id)] == s[ShopKey(id)];
  }

  /** An expired logical entry stays expired: the query never rebuilds, so every later call answers stale. */
  lemma LogicalExpireNeverRebuilds(s: Store, prefix: string, id: int, now: int, later: int)
    requires var key := prefix + LongText(id);
      key in s && s[key].payload.RecordJson? && s[key].payload.expireTime <= now <= later
    ensures var first := LogicalExpireSpec(s, prefix, id, now);
      var second := LogicalExpireSpec(first.store, prefix, id, later);
      !first.rebuild && !second.rebuild && second.reply == first.reply
      && first.reply == ReplyOf(s[prefix + LongText(id)].payload.data)
  {}

  // ----- corrected variants -----

  /**
   * Pass-through as intended: read the key it writes, treat the empty marker
   * as a known miss, load only on a true miss, and cache a found shop as
   * shop JSON with the TTL.
   */
  function PassThroughFixed(s: Store, prefix: string, id: int, loader: int -> Option<Shop>,
                            time: int, unit: TimeUnit, now: int): (o: Outcome)
    ensures o.loaded <==> prefix + LongText(id) !in s
    ensures !o.loaded ==> o.store == s
  {
    var key := prefix + LongText(id);
    var json := Lookup(s, key);
    if json.Some? && !IsBlankValue(json.value) then Outcome(Decoded(json.value), s, false, false)
    else if json.Some? then Outcome(Null, s, false, false)
    else if ToSeconds(time, unit) <= 0 then Outcome(Raised, s, true, false)
    else
      match loader(id)
      case None => Outcome(Null, Put(s, key, Text(""), Some(Deadline(now, ToSeconds(time, unit)))), true, false)
      case Some(shop) => Outcome(Found(shop), Put(s, key, ShopJson(shop), Some(Deadline(now, ToSeconds(time, unit)))), true, false)
  }

  /**
   * Corrected pass-through caches: once a call has gone to the loader, every
   * call before the TTL runs out gives the same answer without it -- the shop,
   * or null for an id the database does not have.
   */
  lemma PassThroughFixedCaches(s: Store, prefix: string, id: int, loader: int -> Option<Shop>,
                               loader2: int -> Option<Shop>, time: int, unit: TimeUnit, now: int, later: int)
    requires ToSeconds(time, unit) > 0
    requires now <= later < Deadline(now, ToSeconds(time, unit))
    requires PassThroughFixed(s, prefix, id, loader, time, unit, now).loaded
    ensures var first := PassThroughFixed(s, prefix, id, loader, time, unit, now);
      var second := PassThroughFixed(Live(first.store, later), prefix, id, loader2, time, unit, later);
      first.reply == ReplyOf(loader(id)) && second.reply == first.reply && !second.loaded
  {
    var key := prefix + LongText(id);
    var first := PassThroughFixed(s, prefix, id, loader, time, unit, now);
    assert key in first.store && first.store[key].expiresAt == Some(Deadline(now, ToSeconds(time, unit)));
    assert key in Live(first.store, later);
  }

  /** The rebuild lock as intended: a key of its own next to the cache key. */
  function RebuildLockKey(key: string): string {
    "lock:" + key
  }

  /** Logical expiry with the rebuild lock on its own key. */
  function LogicalExpireFixed(s: Store, prefix: string, id: int, now: int): (o: Outcome)
    ensures !o.loaded
    ensures forall k :: k != RebuildLockKey(prefix + LongText(id)) ==> (k in o.store <==> k in s) && (k in s ==> o.store[k] == s[k])
  {
    var key := prefix + LongText(id);
    var json := Lookup(s, key);
    if json.None? || IsBlankValue(json.value) then Outcome(Null, s, false, false)
    else
      match RecordOf(json.value)
      case None => Outcome(Raised, s, false, false)
      case Some((data, expireTime)) =>
        if expireTime > now then Outcome(ReplyOf(data), s, false, false)
        else
          var (locked, s') := FlagLock(s, RebuildLockKey(key), now);
          Outcome(ReplyOf(data), s', false, locked)
  }

  /** The rebuild task with the lock on its own key: write the fresh record, then release the lock. */
  function RebuildFixed(s: Store, key: string, id: int, loader: int -> Option<Shop>,
                        time: int, unit: TimeUnit, now: int): (r: Store)
    ensures key in r && r[key] == Entry(LogicalRecord(loader(id), time, unit, now), None)
    ensures RebuildLockKey(key) !in r
  {
    Remove(Put(s, key, LogicalRecord(loader(id), time, unit, now), None), RebuildLockKey(key))
  }

  /**
   * Corrected logical expiry refreshes: a stale read with the lock free
   * submits the rebuild and answers stale; once the rebuild has run, reads
   * before the new expiry get the fresh shop with no further rebuild.
   */
  lemma LogicalExpireFixedRefreshes(s: Store, prefix: string, id: int, loader: int -> Option<Shop>,
                                    time: int, unit: TimeUnit, now: int, rebuiltAt: int, later: int)
    requires var key := prefix + LongText(id);
      key in s && s[key].payload.RecordJson? && s[key].payload.expireTime <= now
      && RebuildLockKey(key) !in s
    requires ToSeconds(time, unit) > 0 && loader(id).Some?
    requires rebuiltAt <= later < Deadline(rebuiltAt, ToSeconds(time, unit))
    ensures var key := prefix + LongText(id);
      var first := LogicalExpireFixed(s, prefix, id, now);
      var rebuilt := RebuildFixed(first.store, key, id, loader, time, unit, rebuiltAt);
      var second := LogicalExpireFixed(rebuilt, prefix, id, later);
      first.rebuild && first.reply == ReplyOf(s[key].payload.data)
      && second.reply == Found(loader(id).value) && !second.rebuild && second.store == rebuilt
  {
    var key := prefix + LongText(id);
    assert RebuildLockKey(key) != key by {
      assert |RebuildLockKey(key)| != |key|;
    }
  }

  /** The store-backed client. */
  class CacheClient {
    const redis: RedisStore

    constructor (redis: RedisStore)
      ensures this.redis == redis
    {
      this.redis := redis;
    }

    /** set(key, value, time, unit): the value as JSON with a TTL. */
    method Set(key: string, value: Shop, time: int, unit: TimeUnit, now: int)
      requires ToSeconds(time, unit) > 0
      modifies redis
      ensures redis.kv == Put(old(redis.kv), key, ShopJson(value), Some(Deadline(now, ToSeconds(time, unit))))
    {
      redis.SetEx(key, ShopJson(value), ToSeconds(time, unit), now);
    }

    /** setWithLogicalExpire: the record expires `time` from now; the key itself has no TTL. */
    method SetWithLogicalExpire(key: string, value: Option<Shop>, time: int, unit: TimeUnit, now: int)
      modifies redis
      ensures redis.kv == Put(old(redis.kv), key, RecordJson(value, Deadline(now, ToSeconds(time, unit))), None)
    {
      var record := RecordJson(value, now + ToSeconds(time, unit) * MILLIS);
      redis.Set(key, record);
    }

    method QueryWithPassThrough(prefix: string, id: int, loader: int -> Option<Shop>,
                                time: int, unit: TimeUnit, now: int) returns (r: Reply)
      modifies redis
      ensures var o := PassThroughSpec(old(redis.kv), prefix, id, loader, time, unit, now);
        r == o.reply && redis.kv == o.store
    {
      var key := prefix + LongText(id);
      var json := redis.Get("cache:shop:" + LongText(id));
      if json.Some? && !IsBlankValue(json.value) {
        return Decoded(json.value);
      }
      if json.None? {
        return Null;
      }
      var loaded := loader(id);
      if loaded.None? {
        if ToSeconds(time, unit) <= 0 {
          return Raised;
        }
        redis.SetEx(key, Text(""), ToSeconds(time, unit), now);
        return Null;
      }
      SetWithLogicalExpire(key, loaded, time, unit, now);
      r := Found(loaded.value);
    }

    /**
     * queryWithLogicalExpire: the reply, and whether the rebuild task was
     * submitted (it is run separately, by RunRebuild).
     */
    method QueryWithLogicalExpire(prefix: string, id: int, now: int) returns (r: Reply, submitted: bool)
      modifies redis
      ensures var o := LogicalExpireSpec(old(redis.kv), prefix, id, now);
        r == o.reply && submitted == o.rebuild && redis.kv == o.store
    {
      var key := prefix + LongText(id);
      var json := redis.Get(key);
      submitted := false;
      if json.None? || IsBlankValue(json.value) {
        return Null, false;
      }
      var record := RecordOf(json.value);
      if record.None? {
        return Raised, false;
      }
      var (data, expireTime) := record.value;
      r := ReplyOf(data);
      if expireTime > now {
        return;
      }
      submitted := TryLock(key, now);
    }

    /** The submitted rebuild task, run to completion at instant `now`. */
    method RunRebuild(key: string, id: int, loader: int -> Option<Shop>, time: int, unit: TimeUnit, now: int)
      modifies redis
      ensures redis.kv == RebuildSpec(old(redis.kv), key, id, loader, time, unit, now)
    {
      var loaded := loader(id);
      SetWithLogicalExpire(key, loaded, time, unit, now);
      Unlock(key);
    }

    method TryLock(key: string, now: int) returns (ok: bool)
      modifies redis
      ensures (ok, redis.kv) == FlagLock(old(redis.kv), key, now)
    {
      ok := redis.SetNx(key, Text(FLAG), Some(FLAG_LEASE), now);
    }

    method Unlock(key: string)
      modifies redis
      ensures redis.kv == Remove(old(redis.kv), key)
    {
      redis.Del(key);
    }
  }
}
