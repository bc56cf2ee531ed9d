/**
 * The key/value store the core talks to through `StringRedisTemplate`, and
 * the values it keeps there.  Keys are strings; a value is either a plain
 * string, an INCR counter, one of the two JSON documents the core writes
 * (a shop, or a `RedisData` record carrying a logical expiry), or the hash
 * a Redisson lock keeps.  JSON is kept
 * as the value it encodes, so encoding is a constructor and decoding a match.
 * Time is a number of milliseconds passed in by the caller, never read from a clock.
 */
module Redis {
  import opened Strings

  datatype Option<T> = None | Some(value: T)

  /** A row of tb_shop: its id and its other columns by name (an absent column is SQL null). */
  datatype Shop = Shop(id: Option<int>, columns: map<string, string>)

  /** The bean JSON decoding yields from a document none of whose properties is a Shop property. */
  const EmptyShop := Shop(None, map[])

  /** The value held by a Redis string key. */
  datatype Payload =
    | Text(s: string)                                  // a plain string: the "" null marker, lock values and tokens
    | Counter(n: int)                                  // the decimal integer INCR maintains
    | ShopJson(shop: Shop)                             // JSONUtil.toJsonStr(shop)
    | RecordJson(data: Option<Shop>, expireTime: int)  // JSONUtil.toJsonStr(redisData), data may be null
    | Lease(holder: string, holds: int)                // a Redisson lock hash: the holder's id and its hold count

  /**
   * hutool `StrUtil.isBlank` of the stored string.  A JSON object text starts
   * with '{' and an integer text with a digit or '-', so only plain strings can be blank.
   */
  predicate IsBlankValue(p: Payload) {
    p.Text? && IsBlank(p.s)
  }

  /**
   * `JSONUtil.toBean(json, Shop.class)`: a shop document gives its shop, a
   * `RedisData` document gives a bean with no property set (its properties
   * `data` and `expireTime` are not Shop properties), and a text that is not a
   * JSON object raises (None).
   */
  function ShopOf(p: Payload): (r: Option<Shop>)
    ensures p.ShopJson? ==> r == Some(p.shop)
    ensures r.None? <==> (p.Text? || p.Counter? || p.Lease?)
  {
    match p
    case ShopJson(shop) => Some(shop)
    case RecordJson(_, _) => Some(EmptyShop)
    case _ => None
  }

  /**
   * `JSONUtil.toBean(json, RedisData.class)` followed by reading `data` and
   * `expireTime.isAfter(...)`: only a `RedisData` document gets that far; a
   * shop document leaves `expireTime` null (NullPointerException) and other
   * texts fail to parse, both raising (None).
   */
  function RecordOf(p: Payload): (r: Option<(Option<Shop>, int)>)
    ensures r.Some? <==> p.RecordJson?
    ensures p.RecordJson? ==> r.value == (p.data, p.expireTime)
  {
    match p
    case RecordJson(data, expireTime) => Some((data, expireTime))
    case _ => None
  }

  /** A stored value and the instant at which the store drops it (None: no TTL). */
  datatype Entry = Entry(payload: Payload, expiresAt: Option<int>)

  type Store = map<string, Entry>

  /** Store time is kept in milliseconds; TTLs are given in seconds. */
  const MILLIS: int := 1000

  /** The instant a TTL of `seconds` given at `now` runs out. */
  function Deadline(now: int, seconds: int): (t: int)
    ensures seconds > 0 ==> t > now
  {
    now + seconds * MILLIS
  }

  /** Java's `Long.MAX_VALUE` and `Long.MIN_VALUE`: the range of a Redis integer. */
  const MAX_LONG: int := 0x7FFF_FFFF_FFFF_FFFF
  const MIN_LONG: int := -0x8000_0000_0000_0000

  /** `java.util.concurrent.TimeUnit`, restricted to the whole-second units. */
  datatype TimeUnit = Seconds | Minutes | Hours | Days

  /** `unit.toSeconds(time)`. */
  function ToSeconds(time: int, unit: TimeUnit): (r: int)
    ensures time > 0 ==> r >= time
    ensures unit == Seconds ==> r == time
  {
    match unit
    case Seconds => time
    case Minutes => time * 60
    case Hours => time * 3600
    case Days => time * 86400
  }

  /** GET: the payload under `key`, if any. */
  function Lookup(s: Store, key: string): (r: Option<Payload>)
    ensures r.Some? <==> key in s
    ensures key in s ==> r.value == s[key].payload
  {
    if key in s then Some(s[key].payload) else None
  }

  /** SET key value [EX ttl]: replaces the value and its TTL, nothing else. */
  function Put(s: Store, key: string, p: Payload, expiresAt: Option<int>): (r: Store)
    ensures key in r && r[key] == Entry(p, expiresAt)
    ensures forall k :: k != key ==> (k in r <==> k in s) && (k in s ==> r[k] == s[k])
  {
    s[key := Entry(p, expiresAt)]
  }

  /** DEL key. */
  function Remove(s: Store, key: string): (r: Store)
    ensures key !in r
    ensures forall k :: k != key ==> (k in r <==> k in s) && (k in s ==> r[k] == s[k])
  {
    s - {key}
  }

  /**
   * INCR key: an absent key counts from 0; the TTL is kept.  A key holding
   * anything but a 64-bit counter, or a counter at `Long.MAX_VALUE`, is an error (None).
   */
  function Incremented(s: Store, key: string): (r: Option<(int, Store)>)
    ensures key !in s ==> r == Some((1, Put(s, key, Counter(1), None)))
    ensures r.None? <==> key in s && !(s[key].payload.Counter? && MIN_LONG <= s[key].payload.n < MAX_LONG)
    ensures r.Some? ==> key in s ==> s[key].payload == Counter(r.value.0 - 1)
    ensures r.Some? ==> r.value.1 == Put(s, key, Counter(r.value.0), if key in s then s[key].expiresAt else None)
    ensures r.Some? ==> MIN_LONG < r.value.0 <= MAX_LONG
  {
    if key !in s then Some((1, Put(s, key, Counter(1), None)))
    else match s[key].payload
      case Counter(n) =>
        if MIN_LONG <= n < MAX_LONG then Some((n + 1, Put(s, key, Counter(n + 1), s[key].expiresAt)))
        else None
      case _ => None
  }

  /** The keys still alive at instant `now`: a key expires once `now` reaches its expiry. */
  function Live(s: Store, now: int): (r: Store)
    ensures forall k :: k in r <==> k in s && (s[k].expiresAt.None? || now < s[k].expiresAt.value)
    ensures forall k :: k in r ==> r[k] == s[k]
  {
    map k | k in s && (s[k].expiresAt.None? || now < s[k].expiresAt.value) :: s[k]
  }

  /** The shared store, updated in place by every command. */
  class RedisStore {
    var kv: Store

    constructor (initial: Store)
      ensures kv == initial
    {
      kv := initial;
    }

    /** GET key. */
    method Get(key: string) returns (v: Option<Payload>)
      ensures v == Lookup(kv, key)
    {
      if key in kv {
        v := Some(kv[key].payload);
      } else {
        v := None;
      }
    }

    /** SET key value: the key loses any TTL it had. */
    method Set(key: string, p: Payload)
      modifies this
      ensures kv == Put(old(kv), key, p, None)
    {
      kv := kv[key := Entry(p, None)];
    }

    /** SET key value EX ttl (the store refuses a non-positive TTL). */
    method SetEx(key: string, p: Payload, ttl: int, now: int)
      requires ttl > 0
      modifies this
      ensures kv == Put(old(kv), key, p, Some(Deadline(now, ttl)))
    {
      kv := kv[key := Entry(p, Some(now + ttl * MILLIS))];
    }

    /** SET key value NX [EX ttl]: writes only when the key is absent, and says whether it did. */
    method SetNx(key: string, p: Payload, lease: Option<int>, now: int) returns (ok: bool)
      requires lease.Some? ==> lease.value > 0
      modifies this
      ensures ok <==> key !in old(kv)
      ensures kv == if ok then Put(old(kv), key, p, if lease.Some? then Some(Deadline(now, lease.value)) else None) else old(kv)
    {
      ok := key !in kv;
      if ok {
        kv := kv[key := Entry(p, if lease.Some? then Some(now + lease.value * MILLIS) else None)];
      }
    }

    /** DEL key. */
    method Del(key: string)
      modifies this
      ensures kv == Remove(old(kv), key)
    {
      kv := kv - {key};
    }

    /** INCR key; None when the store answers with an error. */
    method Incr(key: string) returns (n: Option<int>)
      modifies this
      ensures Incremented(old(kv), key).None? ==> n.None? && kv == old(kv)
      ensures Incremented(old(kv), key).Some? ==> n == Some(Incremented(old(kv), key).value.0) && kv == Incremented(old(kv), key).value.1
    {
      var r := Incremented(kv, key);
      if r.Some? {
        n := Some(r.value.0);
        kv := r.value.1;
      } else {
        n := None;
      }
    }

    /** The store's own eviction of keys whose TTL has run out by instant `now`. */
    method Expire(now: int)
      modifies this
      ensures kv == Live(old(kv), now)
    {
      kv := Live(kv, now);
    }
  }
}
