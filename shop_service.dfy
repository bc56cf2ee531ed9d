/**
 * ShopServiceImpl: the shop read paths written directly against the store
 * (pass-through, logical expiry with a background rebuild, mutex with
 * sleep-and-retry), the rebuild itself, the shop update that evicts the
 * cache entry, and queryById, which uses the logical-expiry path.
 *
 * The database table tb_shop is a map from id to row.  Cache TTLs are in
 * minutes and come from RedisConstants, whose values are not part of this
 * model: they are constructor parameters, positive as the store requires.
 */
module ShopService {
  import opened Strings
  import opened Redis
  import opened Cache

  /** A TTL in minutes. */
  type Minutes = m: int | m > 0 witness 1

  /** `Result` as the controllers see it: ok with optional data, fail, or an exception. */
  datatype Response = Ok(data: Option<Shop>) | Fail | Thrown

  /** The minutes saveShop2Redis is called with from the rebuild task. */
  const REBUILD_MINUTES: int := 30
  /** `Thread.sleep(10)` between mutex retries, in milliseconds. */
  const RETRY_DELAY: int := 10

  /** `shopMapper.selectById(id)`. */
  function SelectById(shops: map<int, Shop>, id: int): Option<Shop> {
    if id in shops then Some(shops[id]) else None
  }

  /** The key saveShop2Redis writes: "cache:shop" + id, with no colon before the id. */
  function SaveKey(id: int): string {
    "cache:shop" + LongText(id)
  }

  /** The lock queryWithLogicalExpire takes: "lock:shop:" + id. */
  function ShopLockKey(id: int): string {
    "lock:shop:" + LongText(id)
  }

  /** The lock queryWithMutex takes: "key:shop:" + id. */
  function MutexKey(id: int): string {
    "key:shop:" + LongText(id)
  }

  /** A TTL of `minutes` set at `now`. */
  function MinutesFrom(now: int, minutes: int): int {
    Deadline(now, minutes * 60)
  }

  /** The shop's id as `"..." + shop.getId()` renders it: "null" when absent. */
  function IdText(id: Option<int>): string {
    if id.Some? then LongText(id.value) else "null"
  }

  /** The key a write to a shop's columns evicts, as update builds it. */
  function EvictKey(id: Option<int>): string {
    "cache:shop:" + IdText(id)
  }

  /**
   * queryWithPassThrough: a non-blank entry is decoded with no database
   * read; a true miss is null, also with none; a blank entry goes to the
   * database and caches the row as shop JSON for `shopTtl` minutes, or the
   * empty marker for `nullTtl` minutes when there is no row.
   */
  function ShopPassThrough(s: Store, shops: map<int, Shop>, id: int, nullTtl: Minutes, shopTtl: Minutes, now: int): (o: Outcome)
    ensures !o.rebuild
    ensures o.loaded <==> ShopKey(id) in s && IsBlankValue(s[ShopKey(id)].payload)
    ensures !o.loaded ==> o.store == s
    ensures ShopKey(id) !in s ==> o.reply == Null
    ensures ShopKey(id) in s && !IsBlankValue(s[ShopKey(id)].payload) ==> o.reply == Decoded(s[ShopKey(id)].payload)
    ensures o.loaded ==> o.reply == ReplyOf(SelectById(shops, id))
    ensures o.loaded && id in shops ==> o.store == Put(s, ShopKey(id), ShopJson(shops[id]), Some(MinutesFrom(now, shopTtl)))
    ensures o.loaded && id !in shops ==> o.store == Put(s, ShopKey(id), Text(""), Some(MinutesFrom(now, nullTtl)))
  {
    var json := Lookup(s, ShopKey(id));
    if json.Some? && !IsBlankValue(json.value) then Outcome(Decoded(json.value), s, false, false)
    else if json.None? then Outcome(Null, s, false, false)
    else
      match SelectById(shops, id)
      case None => Outcome(Null, Put(s, ShopKey(id), Text(""), Some(MinutesFrom(now, nullTtl))), true, false)
      case Some(shop) => Outcome(Found(shop), Put(s, ShopKey(id), ShopJson(shop), Some(MinutesFrom(now, shopTtl))), true, false)
  }

  /**
   * queryWithLogicalExpire: blank or absent is null, an unexpired record
   * gives its data, and an expired one its stale data; a rebuild is submitted
   * exactly when "lock:shop:" + id was free, and only that lock is written.
   */
  function ShopLogicalExpire(s: Store, id: int, now: int): (o: Outcome)
    ensures !o.loaded
    ensures ShopKey(id) !in s || IsBlankValue(s[ShopKey(id)].payload) ==> o.reply == Null && o.store == s && !o.rebuild
    ensures ShopKey(id) in s && s[ShopKey(id)].payload.RecordJson? ==>
      o.reply == ReplyOf(s[ShopKey(id)].payload.data)
      && (o.rebuild <==> s[ShopKey(id)].payload.expireTime <= now && ShopLockKey(id) !in s)
    ensures ShopKey(id) in s && !IsBlankValue(s[ShopKey(id)].payload) && !s[ShopKey(id)].payload.RecordJson? ==>
      o.reply == Raised && o.store == s
    ensures !o.rebuild ==> o.store == s
    ensures o.rebuild ==> o.store == Put(s, ShopLockKey(id), Text(FLAG), Some(Deadline(now, FLAG_LEASE)))
  {
    var json := Lookup(s, ShopKey(id));
    if json.None? || IsBlankValue(json.value) then Outcome(Null, s, false, false)
    else
      match RecordOf(json.value)
      case None => Outcome(Raised, s, false, false)
      case Some((data, expireTime)) =>
        if expireTime > now then Outcome(ReplyOf(data), s, false, false)
        else
          var (locked, s') := FlagLock(s, ShopLockKey(id), now);
          Outcome(ReplyOf(data), s', false, locked)
  }

  /** saveShop2Redis(id, minutes): the row (or null) as a record expiring `minutes` from now, under SaveKey(id). */
  function SaveShop(s: Store, shops: map<int, Shop>, id: int, minutes: int, now: int): (r: Store)
    ensures SaveKey(id) in r && r[SaveKey(id)] == Entry(RecordJson(SelectById(shops, id), MinutesFrom(now, minutes)), None)
    ensures forall k :: k != SaveKey(id) ==> (k in r <==> k in s) && (k in s ==> r[k] == s[k])
  {
    Put(s, SaveKey(id), RecordJson(SelectById(shops, id), MinutesFrom(now, minutes)), None)
  }

  /** The rebuild task: saveShop2Redis(id, 30), then in `finally` delete "lock:shop:" + id. */
  function ShopRebuild(s: Store, shops: map<int, Shop>, id: int, now: int): (r: Store)
    ensures ShopLockKey(id) !in r
    ensures SaveKey(id) in r && r[SaveKey(id)] == Entry(RecordJson(SelectById(shops, id), MinutesFrom(now, REBUILD_MINUTES)), None)
    ensures forall k :: k != SaveKey(id) && k != ShopLockKey(id) ==> (k in r <==> k in s) && (k in s ==> r[k] == s[k])
  {
    ShopKeysDistinct(id);
    Remove(SaveShop(s, shops, id, REBUILD_MINUTES, now), ShopLockKey(id))
  }

  /**
   * queryWithMutex, with `fuel` bounding the depth of its retries (a call
   * out of fuel raises, as a stack overflow would).  Once past the cache
   * check it takes "key:shop:" + id, and on a failed attempt sleeps 10 ms,
   * during which the store drops what has expired, and calls itself again.
   * Its `finally` deletes the lock key on every exit after the attempt,
   * whether this call acquired it or not.
   */
  function MutexQuery(s: Store, shops: map<int, Shop>, id: int, nullTtl: Minutes, shopTtl: Minutes,
                      now: int, fuel: nat): (o: Outcome)
    ensures !o.rebuild
    ensures ShopKey(id) !in s ==> o.reply == Null && o.store == s && !o.loaded
    ensures ShopKey(id) in s && !IsBlankValue(s[ShopKey(id)].payload) ==>
      o.reply == Decoded(s[ShopKey(id)].payload) && o.store == s && !o.loaded
    ensures ShopKey(id) in s && IsBlankValue(s[ShopKey(id)].payload) ==> MutexKey(id) !in o.store
    ensures ShopKey(id) in s && IsBlankValue(s[ShopKey(id)].payload) && MutexKey(id) !in s ==>
      o.loaded && ShopKey(id) in o.store && o.store[ShopKey(id)].expiresAt == Some(MinutesFrom(now, if id in shops then shopTtl else nullTtl))
    ensures o.loaded ==> o.reply == ReplyOf(SelectById(shops, id))
    ensures o.loaded ==>
      && ShopKey(id) in o.store
      && o.store[ShopKey(id)].payload == (if id in shops then ShopJson(shops[id]) else Text(""))
      && o.store[ShopKey(id)].expiresAt.Some?
      && o.store[ShopKey(id)].expiresAt.value >= MinutesFrom(now, if id in shops then shopTtl else nullTtl)
    ensures forall k :: k != ShopKey(id) && k != MutexKey(id) && k in o.store ==> k in s && o.store[k] == s[k]
    decreases fuel
  {
    ShopKeysDistinct(id);
    var json := Lookup(s, ShopKey(id));
    if json.Some? && !IsBlankValue(json.value) then Outcome(Decoded(json.value), s, false, false)
    else if json.None? then Outcome(Null, s, false, false)
    else
      var (locked, s1) := FlagLock(s, MutexKey(id), now);
      if !locked then
        if fuel == 0 then Outcome(Raised, Remove(s1, MutexKey(id)), false, false)
        else
          var inner := MutexQuery(Live(s1, now + RETRY_DELAY), shops, id, nullTtl, shopTtl, now + RETRY_DELAY, fuel - 1);
          inner.(store := Remove(inner.store, MutexKey(id)))
      else
        match SelectById(shops, id)
        case None =>
          Outcome(Null, Remove(Put(s1, ShopKey(id), Text(""), Some(MinutesFrom(now, nullTtl))), MutexKey(id)), true, false)
        case Some(shop) =>
          Outcome(Found(shop), Remove(Put(s1, ShopKey(id), ShopJson(shop), Some(MinutesFrom(now, shopTtl))), MutexKey(id)), true, false)
  }

  /** updateById: the non-null columns of `shop` overwrite the row's; a missing row or id changes nothing. */
  function UpdateRow(shops: map<int, Shop>, shop: Shop): (r: map<int, Shop>)
    ensures r.Keys == shops.Keys
    ensures forall i :: i in shops && shop.id != Some(i) ==> r[i] == shops[i]
    ensures shop.id.Some? && shop.id.value in shops ==>
      r[shop.id.value].id == shops[shop.id.value].id
      && r[shop.id.value].columns == shops[shop.id.value].columns + shop.columns
  {
    if shop.id.Some? && shop.id.value in shops then
      var row := shops[shop.id.value];
      shops[shop.id.value := Shop(row.id, row.columns + shop.columns)]
    else shops
  }

  /**
   * update: the fail result for a null id is built and dropped, so the row
   * update and the eviction of "cache:shop:" + id always run, and the answer is ok.
   */
  function UpdateSpec(s: Store, shops: map<int, Shop>, shop: Shop): (r: (Response, Store, map<int, Shop>))
    ensures r.0 == Ok(None)
    ensures r.1 == Remove(s, EvictKey(shop.id))
    ensures r.2 == UpdateRow(shops, shop)
  {
    (Ok(None), Remove(s, EvictKey(shop.id)), UpdateRow(shops, shop))
  }

  /** queryById: the logical-expiry read, with null turned into a failure ("shop does not exist"). */
  function QueryByIdSpec(s: Store, id: int, now: int): (r: (Response, Store, bool))
    ensures var o := ShopLogicalExpire(s, id, now);
      r.1 == o.store && r.2 == o.rebuild
      && (r.0 == Fail <==> o.reply == Null)
      && (r.0 == Thrown <==> o.reply == Raised)
      && (o.reply.Found? ==> r.0 == Ok(Some(o.reply.shop)))
  {
    var o := ShopLogicalExpire(s, id, now);
    var response := match o.reply
      case Found(shop) => Ok(Some(shop))
      case Null => Fail
      case Raised => Thrown;
    (response, o.store, o.rebuild)
  }

  // ----- facts about the keys -----

  /** The key saveShop2Redis writes is never a key the read paths consult: position 10 is ':' in one and '-' or a digit in the other. */
  lemma SaveKeyNeverRead(id: int, other: int)
    ensures SaveKey(id) != ShopKey(other)
  {
    assert ShopKey(other)[10] == ':';
    assert SaveKey(id)[10] == LongText(id)[0];
  }

  /** The three shop keys of one id are distinct from one another. */
  lemma ShopKeysDistinct(id: int)
    ensures ShopKey(id) != ShopLockKey(id) && ShopKey(id) != MutexKey(id) && ShopLockKey(id) != MutexKey(id)
    ensures SaveKey(id) != ShopLockKey(id)
  {
    assert ShopKey(id)[0] == 'c' && ShopLockKey(id)[0] == 'l' && MutexKey(id)[0] == 'k' && SaveKey(id)[0] == 'c';
  }

  /** The key update evicts for a null id is not the cache key of any shop. */
  lemma NullEvictKeyNoShopKey(id: int)
    ensures EvictKey(None) != ShopKey(id)
  {
    assert EvictKey(None)[11] == 'n';
    assert ShopKey(id)[11] == LongText(id)[0];
  }

  // ----- what the code as written does -----

  /**
   * The rebuild never refreshes what the read path reads: after a stale read
   * submits it and it runs, the entry is as stale as before, and the next
   * read answers the same stale data and submits another rebuild.
   */
  lemma RebuildNeverRefreshes(s: Store, shops: map<int, Shop>, id: int, now: int, rebuiltAt: int, later: int)
    requires ShopKey(id) in s && s[ShopKey(id)].payload.RecordJson?
    requires s[ShopKey(id)].payload.expireTime <= now <= later
    requires ShopLockKey(id) !in s
    ensures var first := ShopLogicalExpire(s, id, now);
      var rebuilt := ShopRebuild(first.store, shops, id, rebuiltAt);
      var second := ShopLogicalExpire(rebuilt, id, later);
      first.rebuild && second.rebuild && second.reply == first.reply
      && rebuilt[ShopKey(id)] == s[ShopKey(id)]
  {
    ShopKeysDistinct(id);
    SaveKeyNeverRead(id, id);
  }

  /**
   * A failed mutex attempt still deletes the lock: while another caller
   * holds "key:shop:" + id, a query that finds the blank marker removes the
   * holder's lock on its way out.
   */
  lemma MutexDeletesForeignLock(s: Store, shops: map<int, Shop>, id: int, nullTtl: Minutes, shopTtl: Minutes,
                                now: int, fuel: nat)
    requires ShopKey(id) in s && IsBlankValue(s[ShopKey(id)].payload)
    requires MutexKey(id) in s
    ensures var o := MutexQuery(s, shops, id, nullTtl, shopTtl, now, fuel);
      MutexKey(id) !in o.store
  {}

  /** After an update of shop `id`, queryById fails until someone re-populates the entry, whatever the row holds. */
  lemma UpdateThenQueryByIdFails(s: Store, shops: map<int, Shop>, shop: Shop, now: int)
    requires shop.id.Some?
    ensures var updated := UpdateSpec(s, shops, shop);
      QueryByIdSpec(updated.1, shop.id.value, now).0 == Fail
  {}

  /** After an update of shop `id`, pass-through answers null without reading the row it just updated. */
  lemma UpdateThenPassThroughNull(s: Store, shops: map<int, Shop>, shop: Shop, nullTtl: Minutes, shopTtl: Minutes, now: int)
    requires shop.id.Some?
    ensures var updated := UpdateSpec(s, shops, shop);
      var o := ShopPassThrough(updated.1, updated.2, shop.id.value, nullTtl, shopTtl, now);
      o.reply == Null && !o.loaded
  {}

  /** An update without an id still answers ok, changes no row, and evicts no shop's entry. */
  lemma UpdateWithoutId(s: Store, shops: map<int, Shop>, shop: Shop, id: int)
    requires shop.id.None?
    ensures var updated := UpdateSpec(s, shops, shop);
      updated.0 == Ok(None) && updated.2 == shops
      && (ShopKey(id) in updated.1 <==> ShopKey(id) in s)
  {
    NullEvictKeyNoShopKey(id);
  }

  /** Pass-through caches a found row: the next read before the TTL runs out gets it with no database read. */
  lemma PassThroughHitAfterLoad(s: Store, shops: map<int, Shop>, id: int, nullTtl: Minutes, shopTtl: Minutes,
                                now: int, later: int)
    requires ShopKey(id) in s && IsBlankValue(s[ShopKey(id)].payload) && id in shops
    requires now <= later < MinutesFrom(now, shopTtl)
    ensures var first := ShopPassThrough(s, shops, id, nullTtl, shopTtl, now);
      var second := ShopPassThrough(Live(first.store, later), shops, id, nullTtl, shopTtl, later);
      first.reply == Found(shops[id]) && second.reply == first.reply && !second.loaded
  {
    var first := ShopPassThrough(s, shops, id, nullTtl, shopTtl, now);
    assert first.store[ShopKey(id)] == Entry(ShopJson(shops[id]), Some(MinutesFrom(now, shopTtl)));
    assert ShopKey(id) in Live(first.store, later);
  }

  /** The empty marker does not stop database reads: for a missing row, every read before it expires reads the table again. */
  lemma PassThroughMarkerReloads(s: Store, shops: map<int, Shop>, id: int, nullTtl: Minutes, shopTtl: Minutes,
                                 now: int, later: int)
    requires ShopKey(id) in s && IsBlankValue(s[ShopKey(id)].payload) && id !in shops
    requires now <= later < MinutesFrom(now, nullTtl)
    ensures var first := ShopPassThrough(s, shops, id, nullTtl, shopTtl, now);
      first.loaded && ShopPassThrough(Live(first.store, later), shops, id, nullTtl, shopTtl, later).loaded
  {
    var first := ShopPassThrough(s, shops, id, nullTtl, shopTtl, now);
    assert first.store[ShopKey(id)] == Entry(Text(""), Some(MinutesFrom(now, nullTtl)));
    assert ShopKey(id) in Live(first.store, later);
  }

  // ----- corrected variants -----

  /** saveShop2Redis writing where the read path reads. */
  function SaveShopFixed(s: Store, shops: map<int, Shop>, id: int, minutes: int, now: int): (r: Store)
    ensures ShopKey(id) in r && r[ShopKey(id)] == Entry(RecordJson(SelectById(shops, id), MinutesFrom(now, minutes)), None)
  {
    Put(s, ShopKey(id), RecordJson(SelectById(shops, id), MinutesFrom(now, minutes)), None)
  }

  /** The rebuild task with the corrected write. */
  function ShopRebuildFixed(s: Store, shops: map<int, Shop>, id: int, now: int): (r: Store)
    ensures ShopLockKey(id) !in r
  {
    Remove(SaveShopFixed(s, shops, id, REBUILD_MINUTES, now), ShopLockKey(id))
  }

  /**
   * With the corrected write, a rebuild refreshes the entry: reads for the
   * next 30 minutes get the current row with no further rebuild.
   */
  lemma RebuildFixedRefreshes(s: Store, shops: map<int, Shop>, id: int, rebuiltAt: int, later: int)
    requires rebuiltAt <= later < MinutesFrom(rebuiltAt, REBUILD_MINUTES)
    ensures var rebuilt := ShopRebuildFixed(s, shops, id, rebuiltAt);
      var read := ShopLogicalExpire(rebuilt, id, later);
      read.reply == ReplyOf(SelectById(shops, id)) && !read.rebuild && read.store == rebuilt
  {
    ShopKeysDistinct(id);
  }

  /**
   * queryWithMutex with the lock released only by the call that acquired
   * it: a failed attempt retries without touching the lock.  That another
   * caller's lock survives is MutexFixedKeepsForeignLock.
   */
  function MutexFixed(s: Store, shops: map<int, Shop>, id: int, nullTtl: Minutes, shopTtl: Minutes,
                      now: int, fuel: nat): (o: Outcome)
    ensures ShopKey(id) !in s ==> o.reply == Null && o.store == s
    ensures ShopKey(id) in s && !IsBlankValue(s[ShopKey(id)].payload) ==>
      o.reply == Decoded(s[ShopKey(id)].payload) && o.store == s
    decreases fuel
  {
    var json := Lookup(s, ShopKey(id));
    if json.Some? && !IsBlankValue(json.value) then Outcome(Decoded(json.value), s, false, false)
    else if json.None? then Outcome(Null, s, false, false)
    else
      var (locked, s1) := FlagLock(s, MutexKey(id), now);
      if !locked then
        if fuel == 0 then Outcome(Raised, s1, false, false)
        else MutexFixed(Live(s1, now + RETRY_DELAY), shops, id, nullTtl, shopTtl, now + RETRY_DELAY, fuel - 1)
      else
        match SelectById(shops, id)
        case None =>
          Outcome(Null, Remove(Put(s1, ShopKey(id), Text(""), Some(MinutesFrom(now, nullTtl))), MutexKey(id)), true, false)
        case Some(shop) =>
          Outcome(Found(shop), Remove(Put(s1, ShopKey(id), ShopJson(shop), Some(MinutesFrom(now, shopTtl))), MutexKey(id)), true, false)
  }

  /**
   * With the corrected release, another caller's lock survives every retry
   * made before its lease runs out, and the cache entry is not touched.
   */
  lemma {:induction false} MutexFixedKeepsForeignLock(s: Store, shops: map<int, Shop>, id: int, nullTtl: Minutes,
                                                       shopTtl: Minutes, now: int, fuel: nat)
    requires ShopKey(id) in s && IsBlankValue(s[ShopKey(id)].payload)
    requires s[ShopKey(id)].expiresAt.None? || now + RETRY_DELAY * fuel < s[ShopKey(id)].expiresAt.value
    requires MutexKey(id) in s
    requires s[MutexKey(id)].expiresAt.None? || now + RETRY_DELAY * fuel < s[MutexKey(id)].expiresAt.value
    ensures var o := MutexFixed(s, shops, id, nullTtl, shopTtl, now, fuel);
      MutexKey(id) in o.store && o.store[MutexKey(id)] == s[MutexKey(id)] && o.reply == Raised
    decreases fuel
  {
    if fuel > 0 {
      var next := Live(s, now + RETRY_DELAY);
      assert ShopKey(id) in next && next[ShopKey(id)] == s[ShopKey(id)];
      assert MutexKey(id) in next && next[MutexKey(id)] == s[MutexKey(id)];
      MutexFixedKeepsForeignLock(next, shops, id, nullTtl, shopTtl, now + RETRY_DELAY, fuel - 1);
    }
  }

  /** The service over the store and tb_shop. */
  class ShopServiceImpl {
    const redis: RedisStore
    var shops: map<int, Shop>
    const cacheNullTtl: Minutes
    const cacheShopTtl: Minutes

    constructor (redis: RedisStore, shops: map<int, Shop>, cacheNullTtl: Minutes, cacheShopTtl: Minutes)
      ensures this.redis == redis && this.shops == shops
      ensures this.cacheNullTtl == cacheNullTtl && this.cacheShopTtl == cacheShopTtl
    {
      this.redis := redis;
      this.shops := shops;
      this.cacheNullTtl := cacheNullTtl;
      this.cacheShopTtl := cacheShopTtl;
    }

    /** queryById: the response, and whether a rebuild was submitted (RunRebuild runs it). */
    method QueryById(id: int, now: int) returns (r: Response, submitted: bool)
      modifies redis
      ensures (r, redis.kv, submitted) == QueryByIdSpec(old(redis.kv), id, now)
    {
      var shop;
      shop, submitted := QueryWithLogicalExpire(id, now);
      match shop
      case Null => r := Fail;
      case Raised => r := Thrown;
      case Found(found) => r := Ok(Some(found));
    }

    method QueryWithLogicalExpire(id: int, now: int) returns (r: Reply, submitted: bool)
      modifies redis
      ensures var o := ShopLogicalExpire(old(redis.kv), id, now);
        r == o.reply && submitted == o.rebuild && redis.kv == o.store
    {
      var shopJson := redis.Get("cache:shop:" + LongText(id));
      submitted := false;
      if shopJson.None? || IsBlankValue(shopJson.value) {
        return Null, false;
      }
      var record := RecordOf(shopJson.value);
      if record.None? {
        return Raised, false;
      }
      var (data, expireTime) := record.value;
      r := ReplyOf(data);
      if expireTime > now {
        return;
      }
      submitted := TryLock("lock:shop:" + LongText(id), now);
    }

    /** The submitted rebuild task, run to completion at instant `now`. */
    method RunRebuild(id: int, now: int)
      modifies redis
      ensures redis.kv == ShopRebuild(old(redis.kv), shops, id, now)
    {
      SaveShop2Redis(id, REBUILD_MINUTES, now);
      Unlock("lock:shop:" + LongText(id));
    }

    /** queryWithMutex, allowed `fuel` nested retries. */
    method QueryWithMutex(id: int, now: int, fuel: nat) returns (r: Reply)
      modifies redis
      ensures var o := MutexQuery(old(redis.kv), shops, id, cacheNullTtl, cacheShopTtl, now, fuel);
        r == o.reply && redis.kv == o.store
      decreases fuel
    {
      var shopJson := redis.Get("cache:shop:" + LongText(id));
      if shopJson.Some? && !IsBlankValue(shopJson.value) {
        return Decoded(shopJson.value);
      }
      if shopJson.None? {
        return Null;
      }
      var key := "key:shop:" + LongText(id);
      var lock := TryLock(key, now);
      if !lock {
        if fuel == 0 {
          r := Raised;
        } else {
          redis.Expire(now + RETRY_DELAY);  // the store's own eviction while this thread sleeps
          r := QueryWithMutex(id, now + RETRY_DELAY, fuel - 1);
        }
        Unlock(key);
        return;
      }
      var shop := SelectById(shops, id);
      if shop.None? {
        redis.SetEx("cache:shop:" + LongText(id), Text(""), cacheNullTtl * 60, now);
        r := Null;
      } else {
        redis.SetEx("cache:shop:" + LongText(id), ShopJson(shop.value), cacheShopTtl * 60, now);
        r := Found(shop.value);
      }
      Unlock(key);
    }

    method QueryWithPassThrough(id: int, now: int) returns (r: Reply)
      modifies redis
      ensures var o := ShopPassThrough(old(redis.kv), shops, id, cacheNullTtl, cacheShopTtl, now);
        r == o.reply && redis.kv == o.store
    {
      var shopJson := redis.Get("cache:shop:" + LongText(id));
      if shopJson.Some? && !IsBlankValue(shopJson.value) {
        return Decoded(shopJson.value);
      }
      if shopJson.None? {
        return Null;
      }
      var shop := SelectById(shops, id);
      if shop.None? {
        redis.SetEx("cache:shop:" + LongText(id), Text(""), cacheNullTtl * 60, now);
        return Null;
      }
      redis.SetEx("cache:shop:" + LongText(id), ShopJson(shop.value), cacheShopTtl * 60, now);
      r := Found(shop.value);
    }

    method TryLock(key: string, now: int) returns (ok: bool)
      modifies redis
      ensures (ok, redis.kv) == FlagLock(old(redis.kv), key, now)
    {
      ok := redis.SetNx(key, Text(FLAG), Some(FLAG_LEASE), now);
    }

    method Unlock(key: string)
      modifies redis
      ensures redis.kv == Remove(old(redis.kv), key)
    {
      redis.Del(key);
    }

    method SaveShop2Redis(id: int, expireTime: int, now: int)
      modifies redis
      ensures redis.kv == SaveShop(old(redis.kv), shops, id, expireTime, now)
    {
      var shop := SelectById(shops, id);
      var redisData := RecordJson(shop, now + expireTime * 60 * MILLIS);
      redis.Set("cache:shop" + LongText(id), redisData);
    }

    /** update(shop): the row, then the cache entry; always ok. */
    method Update(shop: Shop) returns (r: Response)
      modifies this, redis
      ensures (r, redis.kv, shops) == UpdateSpec(old(redis.kv), old(shops), shop)
    {
      var id := shop.id;
      // a null id builds a fail result that is never returned
      shops := UpdateRow(shops, shop);
      redis.Del("cache:shop:" + IdText(shop.id));
      r := Ok(None);
    }
  }
}
