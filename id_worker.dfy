/**
 * RedisIdWorker: a 64-bit id made of the seconds elapsed since 2022-01-01
 * (high 32 bits) and a per-prefix, per-day INCR counter (low 32 bits).
 * Java's `long` arithmetic (two's complement, `<<`, `|`) is written out on
 * unbounded integers.
 */
module IdWorker {
  import opened Redis

  const TWO31: int := 0x8000_0000
  const TWO32: int := 0x1_0000_0000
  const TWO63: int := 0x8000_0000_0000_0000
  const TWO64: int := 0x1_0000_0000_0000_0000

  /** Java `long`. */
  type Long = x: int | -TWO63 <= x < TWO63

  /** 2022-01-01T00:00:00Z in epoch seconds. */
  const BEGIN_TIMESTAMP: int := 1640995200
  /** Width of the counter part of an id. */
  const COUNT_BITS: nat := 32

  // ----- two's complement and bitwise OR -----

  function Pow2(k: nat): (r: nat)
    ensures r >= 1
  {
    if k == 0 then 1 else 2 * Pow2(k - 1)
  }

  /** Bitwise OR of two non-negative integers. */
  function Or(a: nat, b: nat): nat
    decreases a + b
  {
    if a == 0 then b
    else if b == 0 then a
    else 2 * Or(a / 2, b / 2) + (if a % 2 == 1 || b % 2 == 1 then 1 else 0)
  }

  /** The 64-bit pattern of a long, read as an unsigned number. */
  function Unsigned(x: Long): (u: nat)
    ensures u < TWO64
    ensures x >= 0 ==> u == x
  {
    if x < 0 then x + TWO64 else x
  }

  /** The long whose bit pattern is `u`. */
  function Signed(u: nat): (x: Long)
    requires u < TWO64
    ensures u < TWO63 ==> x == u
  {
    if u < TWO63 then u else u - TWO64
  }

  /** A Java `long` expression's value: the integer reduced to 64 bits. */
  function Wrap(x: int): Long {
    Signed(x % TWO64)
  }

  /** A value that fits in a long is its own wrap. */
  lemma WrapFits(x: int)
    requires -TWO63 <= x < TWO63
    ensures Wrap(x) == x
  {
    if x < 0 {
      assert x % TWO64 == x + TWO64;
    }
  }

  /** Java `x << 32` on a long. */
  function ShiftLeft32(x: Long): Long {
    Signed((Unsigned(x) * TWO32) % TWO64)
  }

  /** Java `x | y` on longs. */
  function BitOr(x: Long, y: Long): Long {
    var u := Or(Unsigned(x), Unsigned(y));
    Pow2Facts();
    OrBelow(Unsigned(x), Unsigned(y), 64);
    Signed(u)
  }

  /** Java `id >> 32` (arithmetic shift: rounds toward negative infinity). */
  function TimestampOf(id: Long): int {
    id / TWO32
  }

  /** Java `id & 0xFFFFFFFFL`: the low 32 bits. */
  function CounterOf(id: Long): int {
    id % TWO32
  }

  /** `timestamp << COUNT_BITS | increment` (RedisIdWorker.java:43). */
  function Compose(timestamp: Long, increment: Long): Long {
    BitOr(ShiftLeft32(timestamp), increment)
  }

  // ----- arithmetic facts behind the bit manipulation -----

  lemma Pow2Add(a: nat, b: nat)
    ensures Pow2(a + b) == Pow2(a) * Pow2(b)
  {
    if a > 0 {
      Pow2Add(a - 1, b);
    }
  }

  lemma Pow2Sixteen()
    ensures Pow2(16) == 0x1_0000
  {
    assert Pow2(4) == 16 by {
      assert Pow2(1) == 2 && Pow2(2) == 4 && Pow2(3) == 8;
    }
    assert Pow2(8) == 256 by { Pow2Add(4, 4); }
    Pow2Add(8, 8);
  }

  lemma Pow2Facts()
    ensures Pow2(32) == TWO32 && Pow2(64) == TWO64
  {
    Pow2Sixteen();
    assert Pow2(32) == TWO32 by { Pow2Add(16, 16); }
    Pow2Add(32, 32);
  }

  lemma {:induction false} OrBelow(a: nat, b: nat, k: nat)
    requires a < Pow2(k) && b < Pow2(k)
    ensures Or(a, b) < Pow2(k)
    decreases k
  {
    if a != 0 && b != 0 {
      OrBelow(a / 2, b / 2, k - 1);
    }
  }

  lemma OrDouble(a: nat, b: nat)
    ensures Or(2 * a, b) == 2 * Or(a, b / 2) + b % 2
  {
    if a != 0 && b != 0 {
      assert (2 * a) / 2 == a && (2 * a) % 2 == 0;
    }
  }

  lemma MulMono(m: int, x: int, y: int)
    requires m > 0 && x <= y
    ensures m * x <= m * y
  {}

  lemma DivModUnique(b: int, m: int, q: int, r: int)
    requires m > 0 && 0 <= r < m && b == m * q + r
    ensures b / m == q && b % m == r
  {
    var d := b / m;
    if d > q {
      MulMono(m, q + 1, d);
      assert false;
    } else if d < q {
      MulMono(m, d + 1, q);
      assert false;
    }
  }

  lemma Twice(a: int, p: int)
    ensures a * (2 * p) == 2 * (a * p)
  {}

  /** OR-ing a number below 2^k into one shifted left by k bits is addition: no bits overlap. */
  lemma {:induction false} OrLow(a: nat, b: nat, k: nat)
    requires b < Pow2(k)
    ensures Or(a * Pow2(k), b) == a * Pow2(k) + b
    decreases k
  {
    if k > 0 {
      var p := Pow2(k - 1);
      OrLow(a, b / 2, k - 1);
      Twice(a, p);
      var ap := a * p;
      OrDouble(ap, b);
    }
  }

  // ----- the id layout -----

  /** With the timestamp below 2^31 and the counter below 2^32, the id is plain arithmetic. */
  lemma ComposeValue(timestamp: Long, increment: Long)
    requires 0 <= timestamp < TWO31 && 0 <= increment < TWO32
    ensures Compose(timestamp, increment) == timestamp * TWO32 + increment
  {
    var shifted := timestamp * TWO32;
    assert shifted < TWO63;
    assert ShiftLeft32(timestamp) == shifted;
    Pow2Facts();
    OrLow(timestamp, increment, 32);
  }

  /** Decoding an id gives back the timestamp (`id >> 32`) and the counter (`id & 0xFFFFFFFF`). */
  lemma ComposeRoundTrip(timestamp: Long, increment: Long)
    requires 0 <= timestamp < TWO31 && 0 <= increment < TWO32
    ensures TimestampOf(Compose(timestamp, increment)) == timestamp
    ensures CounterOf(Compose(timestamp, increment)) == increment
  {
    ComposeValue(timestamp, increment);
    DivModUnique(timestamp * TWO32 + increment, TWO32, timestamp, increment);
  }

  /** Within one second, the next counter value gives the next id. */
  lemma ComposeNext(timestamp: Long, increment: Long)
    requires 0 <= timestamp < TWO31 && 0 <= increment && increment + 1 < TWO32
    ensures Compose(timestamp, increment + 1) == Compose(timestamp, increment) + 1
  {
    ComposeValue(timestamp, increment);
    ComposeValue(timestamp, increment + 1);
  }

  /** Within one second, a larger counter gives a larger id. */
  lemma ComposeCounterMonotone(timestamp: Long, c1: Long, c2: Long)
    requires 0 <= timestamp < TWO31 && 0 <= c1 < c2 < TWO32
    ensures Compose(timestamp, c1) < Compose(timestamp, c2)
  {
    ComposeValue(timestamp, c1);
    ComposeValue(timestamp, c2);
  }

  /** A later second gives a larger id whatever the two counters are. */
  lemma ComposeTimeMonotone(t1: Long, c1: Long, t2: Long, c2: Long)
    requires 0 <= t1 < t2 < TWO31
    requires 0 <= c1 < TWO32 && 0 <= c2 < TWO32
    ensures Compose(t1, c1) < Compose(t2, c2)
  {
    ComposeValue(t1, c1);
    ComposeValue(t2, c2);
    MulMono(TWO32, t1 + 1, t2);
  }

  /** Within the bounds, distinct (second, counter) pairs give distinct ids. */
  lemma ComposeInjective(t1: Long, c1: Long, t2: Long, c2: Long)
    requires 0 <= t1 < TWO31 && 0 <= c1 < TWO32
    requires 0 <= t2 < TWO31 && 0 <= c2 < TWO32
    requires Compose(t1, c1) == Compose(t2, c2)
    ensures t1 == t2 && c1 == c2
  {
    ComposeRoundTrip(t1, c1);
    ComposeRoundTrip(t2, c2);
  }

  /**
   * The counter bound is needed: a counter past 32 bits is OR-ed into the
   * timestamp bits, and the id of second 0 collides with the first id of second 1.
   */
  lemma CounterOverflowCollides()
    ensures Compose(0, TWO32 + 1) == Compose(1, 1)
  {
    Pow2Facts();
    OrLow(1, 1, 32);
    assert ShiftLeft32(1) == TWO32;
    assert Compose(1, 1) == TWO32 + 1;
    assert ShiftLeft32(0) == 0;
    assert Compose(0, TWO32 + 1) == TWO32 + 1;
  }

  // ----- nextId -----

  /** `LocalDateTime.now()` as the two things nextId reads from it (UTC). */
  datatype Clock = Clock(epochSecond: Long, date: string)  // date: the `yyyy:MM:dd` rendering

  /** The key of the per-prefix, per-day counter (RedisIdWorker.java:39-41). */
  function CounterKey(keyPrefix: string, date: string): string {
    "icr:" + keyPrefix + ":" + date
  }

  /** The value the counter at `key` holds (0 when absent, as INCR counts it). */
  function CountAt(s: Store, key: string): int {
    if key in s && s[key].payload.Counter? then s[key].payload.n else 0
  }

  /** INCR can work on `key`: it is absent or holds a counter. */
  predicate HoldsCounter(s: Store, key: string) {
    key !in s || s[key].payload.Counter?
  }

  /**
   * nextId: the id and the new store; no id when INCR fails (the exception
   * propagates), which is exactly when the key holds something other than a
   * counter or the counter is at Long.MAX_VALUE.  Only the day's counter
   * changes, and it goes up by one.
   */
  function NextIdSpec(s: Store, keyPrefix: string, clock: Clock): (r: (Option<Long>, Store))
    ensures var key := CounterKey(keyPrefix, clock.date);
      r.0.Some? <==> HoldsCounter(s, key) && MIN_LONG <= CountAt(s, key) < MAX_LONG
    ensures var key := CounterKey(keyPrefix, clock.date);
      forall k :: k != key ==> (k in r.1 <==> k in s) && (k in s ==> r.1[k] == s[k])
    ensures r.0.None? ==> r.1 == s
    ensures r.0.Some? ==> var key := CounterKey(keyPrefix, clock.date);
      key in r.1 && r.1[key].payload == Counter(CountAt(s, key) + 1) && CountAt(r.1, key) == CountAt(s, key) + 1
    ensures r.0.Some? ==> (
      && MIN_LONG <= CountAt(s, CounterKey(keyPrefix, clock.date)) < MAX_LONG
      && r.0.value == Compose(Wrap(clock.epochSecond - BEGIN_TIMESTAMP), CountAt(s, CounterKey(keyPrefix, clock.date)) + 1))
  {
    var timestamp := Wrap(clock.epochSecond - BEGIN_TIMESTAMP);
    match Incremented(s, CounterKey(keyPrefix, clock.date))
    case None => (None, s)
    case Some((n, s')) => (Some(Compose(timestamp, n)), s')
  }

  /**
   * Within the bounds of the layout, an id from nextId decodes to the
   * seconds since BEGIN_TIMESTAMP and to the day's counter after the INCR.
   */
  lemma NextIdDecodes(s: Store, keyPrefix: string, clock: Clock)
    requires 0 <= clock.epochSecond - BEGIN_TIMESTAMP < TWO31
    requires 0 <= CountAt(s, CounterKey(keyPrefix, clock.date)) + 1 < TWO32
    requires HoldsCounter(s, CounterKey(keyPrefix, clock.date))
    ensures NextIdSpec(s, keyPrefix, clock).0.Some?
    ensures var id := NextIdSpec(s, keyPrefix, clock).0.value;
      TimestampOf(id) == clock.epochSecond - BEGIN_TIMESTAMP
      && CounterOf(id) == CountAt(s, CounterKey(keyPrefix, clock.date)) + 1
  {
    var c := CountAt(s, CounterKey(keyPrefix, clock.date)) + 1;
    WrapFits(clock.epochSecond - BEGIN_TIMESTAMP);
    ComposeRoundTrip(clock.epochSecond - BEGIN_TIMESTAMP, c);
  }

  /** Two successive calls in the same second with the same prefix give consecutive ids. */
  lemma NextIdSuccessive(s: Store, keyPrefix: string, clock: Clock)
    requires 0 <= clock.epochSecond - BEGIN_TIMESTAMP < TWO31
    requires 0 <= CountAt(s, CounterKey(keyPrefix, clock.date)) + 1 && CountAt(s, CounterKey(keyPrefix, clock.date)) + 2 < TWO32
    requires HoldsCounter(s, CounterKey(keyPrefix, clock.date))
    ensures var first := NextIdSpec(s, keyPrefix, clock);
      first.0.Some? && NextIdSpec(first.1, keyPrefix, clock).0.Some?
      && NextIdSpec(first.1, keyPrefix, clock).0.value == first.0.value + 1
  {
    var ts := clock.epochSecond - BEGIN_TIMESTAMP;
    WrapFits(ts);
    var c := CountAt(s, CounterKey(keyPrefix, clock.date)) + 1;
    ComposeNext(ts, c);
  }

  /**
   * Two calls in the same second on prefixes with different counters, within
   * the layout's bounds: the ids agree exactly when the two counters did.
   */
  lemma NextIdAcrossPrefixes(s: Store, prefix1: string, prefix2: string, clock: Clock)
    requires CounterKey(prefix1, clock.date) != CounterKey(prefix2, clock.date)
    requires 0 <= clock.epochSecond - BEGIN_TIMESTAMP < TWO31
    requires 0 <= CountAt(s, CounterKey(prefix1, clock.date)) + 1 < TWO32
    requires 0 <= CountAt(s, CounterKey(prefix2, clock.date)) + 1 < TWO32
    requires HoldsCounter(s, CounterKey(prefix1, clock.date)) && HoldsCounter(s, CounterKey(prefix2, clock.date))
    ensures var first := NextIdSpec(s, prefix1, clock);
      first.0.Some? && NextIdSpec(first.1, prefix2, clock).0.Some?
    ensures var first := NextIdSpec(s, prefix1, clock);
      NextIdSpec(first.1, prefix2, clock).0.value == first.0.value
      <==> CountAt(s, CounterKey(prefix1, clock.date)) == CountAt(s, CounterKey(prefix2, clock.date))
  {
    var ts := clock.epochSecond - BEGIN_TIMESTAMP;
    WrapFits(ts);
    var key2 := CounterKey(prefix2, clock.date);
    var first := NextIdSpec(s, prefix1, clock);
    var c1 := CountAt(s, CounterKey(prefix1, clock.date)) + 1;
    assert first.0.Some?;
    assert key2 in first.1 <==> key2 in s;
    assert key2 in s ==> first.1[key2] == s[key2];
    var c2 := CountAt(first.1, key2) + 1;
    assert c2 == CountAt(s, key2) + 1;
    assert HoldsCounter(first.1, key2);
    var second := NextIdSpec(first.1, prefix2, clock);
    assert first.0.value == Compose(ts, c1);
    assert second.0.value == Compose(ts, c2);
    if second.0.value == first.0.value {
      ComposeInjective(ts, c1, ts, c2);
    }
  }

  /** An id taken in a later second is larger, whatever either counter is (below 2^32). */
  lemma NextIdLaterSecond(s1: Store, clock1: Clock, s2: Store, clock2: Clock, keyPrefix: string)
    requires 0 <= clock1.epochSecond - BEGIN_TIMESTAMP < clock2.epochSecond - BEGIN_TIMESTAMP < TWO31
    requires 0 <= CountAt(s1, CounterKey(keyPrefix, clock1.date)) + 1 < TWO32
    requires 0 <= CountAt(s2, CounterKey(keyPrefix, clock2.date)) + 1 < TWO32
    requires HoldsCounter(s1, CounterKey(keyPrefix, clock1.date)) && HoldsCounter(s2, CounterKey(keyPrefix, clock2.date))
    ensures NextIdSpec(s1, keyPrefix, clock1).0.Some? && NextIdSpec(s2, keyPrefix, clock2).0.Some?
    ensures NextIdSpec(s1, keyPrefix, clock1).0.value < NextIdSpec(s2, keyPrefix, clock2).0.value
  {
    var t1, t2 := clock1.epochSecond - BEGIN_TIMESTAMP, clock2.epochSecond - BEGIN_TIMESTAMP;
    WrapFits(t1);
    WrapFits(t2);
    ComposeTimeMonotone(t1, CountAt(s1, CounterKey(keyPrefix, clock1.date)) + 1,
                        t2, CountAt(s2, CounterKey(keyPrefix, clock2.date)) + 1);
  }

  class RedisIdWorker {
    const redis: RedisStore

    constructor (redis: RedisStore)
      ensures this.redis == redis
    {
      this.redis := redis;
    }

    /** RedisIdWorker.nextId: INCR the day's counter and pack it under the timestamp. */
    method NextId(keyPrefix: string, clock: Clock) returns (id: Option<Long>)
      modifies redis
      ensures (id, redis.kv) == NextIdSpec(old(redis.kv), keyPrefix, clock)
    {
      var timestamp := Wrap(clock.epochSecond - BEGIN_TIMESTAMP);
      var date := clock.date;
      var increment := redis.Incr("icr:" + keyPrefix + ":" + date);
      if increment.None? {
        id := None;
        return;
      }
      id := Some(Compose(timestamp, increment.value));
    }
  }
}
