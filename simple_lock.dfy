/**
 * SimpleRedisLock: a named lock held as the store key "lock:" + name, whose
 * value is the holder's token.  Acquiring is SET-if-absent with a lease;
 * releasing deletes the key only when it still holds the caller's token.
 */
module SimpleLock {
  import opened Strings
  import opened Redis

  const PREFIX: string := "lock:"

  /** The store key of the lock called `name`. */
  function LockKey(name: string): string {
    PREFIX + name
  }

  /**
   * The holder token: the per-process `ID_PREFIX` (a random UUID followed by
   * "-") and the id of the calling thread.  The lock's name plays no part.
   */
  function Token(idPrefix: string, threadId: int): string {
    idPrefix + LongText(threadId)
  }

  /** Whether `token` is the value currently held under `key`. */
  predicate Holds(s: Store, key: string, token: string) {
    key in s && s[key].payload == Text(token)
  }

  /**
   * trylock: the outcome and the new store.  It succeeds exactly when the
   * key was absent, and then holds the token with a lease of `timeOutSec`
   * seconds; a failed attempt writes nothing.
   */
  function TryLockSpec(s: Store, name: string, token: string, timeOutSec: int, now: int): (r: (bool, Store))
    ensures r.0 <==> LockKey(name) !in s
    ensures r.0 ==> Holds(r.1, LockKey(name), token) && r.1[LockKey(name)].expiresAt == Some(Deadline(now, timeOutSec))
    ensures forall k :: k != LockKey(name) ==> (k in r.1 <==> k in s) && (k in s ==> r.1[k] == s[k])
    ensures !r.0 ==> r.1 == s
  {
    if LockKey(name) in s then (false, s)
    else (true, Put(s, LockKey(name), Text(token), Some(Deadline(now, timeOutSec))))
  }

  /**
   * unlock: compare-and-delete.  The key goes only when it holds the caller's
   * token; under any other value, or when absent, nothing changes.
   */
  function UnlockSpec(s: Store, name: string, token: string): (r: Store)
    ensures Holds(s, LockKey(name), token) ==> LockKey(name) !in r
    ensures !Holds(s, LockKey(name), token) ==> r == s
    ensures forall k :: k != LockKey(name) ==> (k in r <==> k in s) && (k in s ==> r[k] == s[k])
  {
    if Holds(s, LockKey(name), token) then Remove(s, LockKey(name)) else s
  }

  /** Of two successive attempts on one name, whoever makes them, at most one succeeds. */
  lemma AtMostOneAcquires(s: Store, name: string, t1: string, t2: string, lease1: int, lease2: int, now1: int, now2: int)
    ensures var first := TryLockSpec(s, name, t1, lease1, now1);
      !(first.0 && TryLockSpec(first.1, name, t2, lease2, now2).0)
  {}

  /** A release by anyone but the current holder leaves the holder's lock in place. */
  lemma ForeignUnlockKeepsLock(s: Store, name: string, holder: string, other: string)
    requires Holds(s, LockKey(name), holder) && other != holder
    ensures UnlockSpec(s, name, other) == s
    ensures Holds(UnlockSpec(s, name, other), LockKey(name), holder)
  {}

  /** Acquiring and then releasing with the same token gives back the store as it was. */
  lemma AcquireReleaseRestores(s: Store, name: string, token: string, timeOutSec: int, now: int)
    requires TryLockSpec(s, name, token, timeOutSec, now).0
    ensures UnlockSpec(TryLockSpec(s, name, token, timeOutSec, now).1, name, token) == s
  {
    var acquired := TryLockSpec(s, name, token, timeOutSec, now).1;
    var released := UnlockSpec(acquired, name, token);
    assert Holds(acquired, LockKey(name), token);
    assert released == Remove(acquired, LockKey(name));
    assert LockKey(name) !in s;
    assert forall k :: k in released <==> k in s;
  }

  /**
   * Lease expiry: A acquires, its lease runs out, B acquires, and A's late
   * release (with A's own token) does not remove B's lock.
   */
  lemma LateReleaseAfterExpiry(s: Store, name: string, tokenA: string, tokenB: string,
                               lease: int, now: int, later: int, leaseB: int)
    requires tokenA != tokenB
    requires lease > 0 && Deadline(now, lease) <= later
    requires TryLockSpec(s, name, tokenA, lease, now).0
    ensures var afterA := TryLockSpec(s, name, tokenA, lease, now).1;
      var expired := Live(afterA, later);
      var afterB := TryLockSpec(expired, name, tokenB, leaseB, later);
      afterB.0 && Holds(UnlockSpec(afterB.1, name, tokenA), LockKey(name), tokenB)
  {
    var afterA := TryLockSpec(s, name, tokenA, lease, now).1;
    assert afterA[LockKey(name)].expiresAt == Some(Deadline(now, lease));
    var expired := Live(afterA, later);
    assert LockKey(name) !in expired;
  }

  /** Threads of one process get distinct tokens. */
  lemma TokenPerThread(idPrefix: string, thread1: int, thread2: int)
    requires thread1 != thread2
    ensures Token(idPrefix, thread1) != Token(idPrefix, thread2)
  {
    if Token(idPrefix, thread1) == Token(idPrefix, thread2) {
      KeyInjective(idPrefix, thread1, thread2);
    }
  }

  /** Processes with distinct prefixes of one length (the UUID form) never share a token. */
  lemma TokenPerProcess(prefix1: string, prefix2: string, thread1: int, thread2: int)
    requires |prefix1| == |prefix2| && prefix1 != prefix2
    ensures Token(prefix1, thread1) != Token(prefix2, thread2)
  {
    assert Token(prefix1, thread1)[..|prefix1|] == prefix1;
    assert Token(prefix2, thread2)[..|prefix2|] == prefix2;
  }

  /**
   * A lock over the shared store.  `idPrefix` is the process-wide `ID_PREFIX`
   * every instance of one process shares; the thread id is passed in.
   */
  class SimpleRedisLock {
    const name: string
    const redis: RedisStore
    const idPrefix: string

    constructor (name: string, redis: RedisStore, idPrefix: string)
      ensures this.name == name && this.redis == redis && this.idPrefix == idPrefix
    {
      this.name := name;
      this.redis := redis;
      this.idPrefix := idPrefix;
    }

    /** trylock(timeOutSec), called from thread `threadId` at instant `now`. */
    method TryLock(threadId: int, timeOutSec: int, now: int) returns (ok: bool)
      requires timeOutSec > 0
      modifies redis
      ensures (ok, redis.kv) == TryLockSpec(old(redis.kv), name, Token(idPrefix, threadId), timeOutSec, now)
    {
      var threadToken := idPrefix + LongText(threadId);
      var key := PREFIX + name;
      ok := redis.SetNx(key, Text(threadToken), Some(timeOutSec), now);
    }

    /** unlock(), called from thread `threadId`: one atomic compare-and-delete. */
    method Unlock(threadId: int)
      modifies redis
      ensures redis.kv == UnlockSpec(old(redis.kv), name, Token(idPrefix, threadId))
    {
      var current := idPrefix + LongText(threadId);
      var held := redis.Get(PREFIX + name);
      if held == Some(Text(current)) {
        redis.Del(PREFIX + name);
      }
    }
  }
}
