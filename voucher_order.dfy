/**
 * VoucherOrderServiceImpl: flash-sale orders.  seckillVoucher runs the
 * admission script (whose result is an input here) and hands out an id;
 * a single consumer thread reads orders from the stream "stream.order" in
 * group g1, persists each one under a per-user Redisson lock, and
 * acknowledges it; a failure sends the consumer to its pending list, which
 * it works through from the oldest entry until the list is empty.
 *
 * The database tables are one value (`Tables`), so createVoucher's
 * transaction is a single function from tables to tables; an exception
 * rolls it back by leaving the tables as they were.
 */
module VoucherOrders {
  import opened Strings
  import opened Redis
  import opened IdWorker

  /** A row of tb_voucher_order, and the body of a stream message. */
  datatype VoucherOrder = VoucherOrder(id: int, userId: int, voucherId: int)

  /** tb_seckill_voucher's stock by voucher id, and tb_voucher_order by order id. */
  datatype Tables = Tables(stock: map<int, int>, orders: map<int, VoucherOrder>)

  /** createVoucher's `Result`: ok with the voucher id, or one of its two failures. */
  datatype Created = Created(voucherId: int) | AlreadyOrdered | OutOfStock

  /** Whether tb_voucher_order has a row for this voucher and user. */
  predicate HasOrder(orders: map<int, VoucherOrder>, voucherId: int, userId: int) {
    exists k :: k in orders && orders[k].voucherId == voucherId && orders[k].userId == userId
  }

  /** Every stock count is non-negative. */
  predicate StockValid(t: Tables) {
    forall v :: v in t.stock ==> t.stock[v] >= 0
  }

  /** At most one order per (voucher, user). */
  predicate OnePerUser(orders: map<int, VoucherOrder>) {
    forall k1, k2 :: k1 in orders && k2 in orders && k1 != k2 ==>
      orders[k1].voucherId != orders[k2].voucherId || orders[k1].userId != orders[k2].userId
  }

  /** The orders for voucher `v`. */
  function Sold(orders: map<int, VoucherOrder>, v: int): set<int> {
    set k | k in orders && orders[k].voucherId == v
  }

  /** Whether the conditional decrement `stock = stock - 1 where voucher_id = v and stock > 0` hits a row. */
  predicate InStock(t: Tables, v: int) {
    v in t.stock && t.stock[v] > 0
  }

  /**
   * createVoucher(order) on a thread whose logged-in user is `threadUser`
   * (None: no user, and `UserHolder.getUser().getId()` raises).  None is an
   * exception, after which the transaction leaves the tables unchanged.  The
   * duplicate check is against the thread's user, not the order's.
   */
  function CreateVoucherSpec(t: Tables, order: VoucherOrder, threadUser: Option<int>): (r: (Option<Created>, Tables))
    ensures threadUser.None? ==> r.0.None?
    ensures r.0 == Some(AlreadyOrdered) <==> threadUser.Some? && HasOrder(t.orders, order.voucherId, threadUser.value)
    ensures r.0 == Some(OutOfStock) <==>
      threadUser.Some? && !HasOrder(t.orders, order.voucherId, threadUser.value) && !InStock(t, order.voucherId)
    ensures r.0.Some? && r.0.value.Created? <==>
      threadUser.Some? && !HasOrder(t.orders, order.voucherId, threadUser.value) && InStock(t, order.voucherId)
      && order.id !in t.orders
    ensures !(r.0.Some? && r.0.value.Created?) ==> r.1 == t
    ensures r.0.Some? && r.0.value.Created? ==>
      r.0.value.voucherId == order.voucherId
      && r.1.stock == t.stock[order.voucherId := t.stock[order.voucherId] - 1]
      && r.1.orders == t.orders[order.id := order]
  {
    if threadUser.None? then (None, t)
    else if HasOrder(t.orders, order.voucherId, threadUser.value) then (Some(AlreadyOrdered), t)
    else if !InStock(t, order.voucherId) then (Some(OutOfStock), t)
    else if order.id in t.orders then (None, t)  // duplicate primary key: the insert raises and the decrement rolls back
    else
      var v := order.voucherId;
      (Some(Created(v)), Tables(t.stock[v := t.stock[v] - 1], t.orders[order.id := order]))
  }

  /** Stock never goes negative: createVoucher keeps every count at zero or above. */
  lemma CreateKeepsStockValid(t: Tables, order: VoucherOrder, threadUser: Option<int>)
    requires StockValid(t)
    ensures StockValid(CreateVoucherSpec(t, order, threadUser).1)
  {}

  /** Stock plus orders is conserved for every voucher: one unit leaves the stock exactly when one order row arrives. */
  lemma CreateConserves(t: Tables, order: VoucherOrder, threadUser: Option<int>, v: int)
    requires v in t.stock
    ensures var r := CreateVoucherSpec(t, order, threadUser).1;
      v in r.stock && r.stock[v] + |Sold(r.orders, v)| == t.stock[v] + |Sold(t.orders, v)|
  {
    var r := CreateVoucherSpec(t, order, threadUser);
    if r.0.Some? && r.0.value.Created? {
      SoldAfterInsert(t.orders, order, v);
    }
  }

  /** Inserting a new order row adds one sale to its own voucher and none to any other. */
  lemma SoldAfterInsert(orders: map<int, VoucherOrder>, order: VoucherOrder, v: int)
    requires order.id !in orders
    ensures |Sold(orders[order.id := order], v)| == |Sold(orders, v)| + (if order.voucherId == v then 1 else 0)
  {
    if order.voucherId == v {
      assert Sold(orders[order.id := order], v) == Sold(orders, v) + {order.id};
    } else {
      assert Sold(orders[order.id := order], v) == Sold(orders, v);
    }
  }

  /** When the thread's user is the order's user, createVoucher keeps one order per (voucher, user). */
  lemma CreateKeepsOnePerUser(t: Tables, order: VoucherOrder)
    requires OnePerUser(t.orders)
    ensures OnePerUser(CreateVoucherSpec(t, order, Some(order.userId)).1.orders)
  {
    var r := CreateVoucherSpec(t, order, Some(order.userId));
    if r.0.Some? && r.0.value.Created? {
      forall k1, k2 | k1 in r.1.orders && k2 in r.1.orders && k1 != k2
        ensures r.1.orders[k1].voucherId != r.1.orders[k2].voucherId || r.1.orders[k1].userId != r.1.orders[k2].userId
      {
        if k1 == order.id {
          assert k2 in t.orders;
        } else if k2 == order.id {
          assert k1 in t.orders;
        }
      }
    }
  }

  /**
   * The check is against the thread's user: a thread whose user is not the
   * order's user can store a second order for the same (voucher, user).
   */
  lemma ForeignUserDuplicates()
    ensures var t := Tables(map[5 := 1], map[1 := VoucherOrder(1, 7, 5)]);
      var r := CreateVoucherSpec(t, VoucherOrder(2, 7, 5), Some(8));
      OnePerUser(t.orders) && r.0 == Some(Created(5)) && !OnePerUser(r.1.orders)
  {
    var t := Tables(map[5 := 1], map[1 := VoucherOrder(1, 7, 5)]);
    assert !HasOrder(t.orders, 5, 8);
    var r := CreateVoucherSpec(t, VoucherOrder(2, 7, 5), Some(8));
    assert r.1.orders[1] == VoucherOrder(1, 7, 5) && r.1.orders[2] == VoucherOrder(2, 7, 5);
  }

  // ----- seckillVoucher -----

  /** What seckillVoucher answers: the id it hands out, "not eligible", or an exception. */
  datatype SeckillResult = Ordered(id: Long) | NotEligible | SeckillRaised

  /** `Long.intValue()`: the low 32 bits as a signed int. */
  function IntValue(x: Long): (r: int)
    ensures -TWO31 <= r < TWO31
    ensures (r - x) % TWO32 == 0
  {
    var low := x % TWO32;
    if low < TWO31 then low else low - TWO32
  }

  /**
   * seckillVoucher for the request's user (None: no user, which raises), at
   * `clock`, where `scriptResult` is what the admission script returned
   * (None: nil, which raises on unboxing).  The script's own reads and
   * writes are not part of this model.  The result says what is answered,
   * the store after the two id counters, and whether `proxy` was set.
   */
  function SeckillSpec(s: Store, user: Option<int>, clock: Clock, scriptResult: Option<Long>): (r: (SeckillResult, Store, bool))
    ensures r.0.Ordered? ==> r.2 && scriptResult.Some? && IntValue(scriptResult.value) == 0
    ensures scriptResult.Some? && IntValue(scriptResult.value) != 0 && user.Some? ==>
      !r.2 && r.0 == (if NextIdSpec(s, "order", clock).0.Some? then NotEligible else SeckillRaised)
    ensures user.None? ==> r == (SeckillRaised, s, false)
    ensures var first := NextIdSpec(s, "order", clock);
      var second := NextIdSpec(first.1, "order:", clock);
      user.Some? && first.0.Some? && scriptResult.Some? && IntValue(scriptResult.value) == 0 && second.0.Some? ==>
        r == (Ordered(second.0.value), second.1, true)
    ensures user.Some? && !r.2 ==> r.1 == NextIdSpec(s, "order", clock).1
    ensures user.Some? && !r.2 ==> CountAt(r.1, CounterKey("order:", clock.date)) == CountAt(s, CounterKey("order:", clock.date))
    ensures forall k :: k != CounterKey("order", clock.date) && k != CounterKey("order:", clock.date) ==>
      (k in r.1 <==> k in s) && (k in s ==> r.1[k] == s[k])
  {
    SeckillCountersDiffer(clock.date);
    if user.None? then (SeckillRaised, s, false)
    else
      var (orderId, s1) := NextIdSpec(s, "order", clock);
      if orderId.None? || scriptResult.None? then (SeckillRaised, s1, false)
      else if IntValue(scriptResult.value) != 0 then (NotEligible, s1, false)
      else
        var (id, s2) := NextIdSpec(s1, "order:", clock);
        if id.None? then (SeckillRaised, s1, true)
        else (Ordered(id.value), s2, true)
  }

  /** The id the script records and the id handed back come from two different counters. */
  lemma SeckillCountersDiffer(date: string)
    ensures CounterKey("order", date) != CounterKey("order:", date)
  {
    assert |CounterKey("order", date)| != |CounterKey("order:", date)|;
  }

  /**
   * On success the caller gets the id from counter "order:", not the id the
   * script recorded (counter "order"); within the id layout's bounds the two
   * agree only when the two counters happen to agree.
   */
  lemma SeckillIdIsNotTheOrderId(s: Store, user: Option<int>, clock: Clock, scriptResult: Option<Long>)
    requires 0 <= clock.epochSecond - BEGIN_TIMESTAMP < TWO31
    requires 0 <= CountAt(s, CounterKey("order", clock.date)) + 1 < TWO32
    requires 0 <= CountAt(s, CounterKey("order:", clock.date)) + 1 < TWO32
    requires SeckillSpec(s, user, clock, scriptResult).0.Ordered?
    ensures var scriptId := NextIdSpec(s, "order", clock).0;
      scriptId.Some?
      && (SeckillSpec(s, user, clock, scriptResult).0.id == scriptId.value
          <==> CountAt(s, CounterKey("order", clock.date)) == CountAt(s, CounterKey("order:", clock.date)))
  {
    var first := NextIdSpec(s, "order", clock);
    SeckillCountersDiffer(clock.date);
    assert SeckillSpec(s, user, clock, scriptResult).0 == Ordered(NextIdSpec(first.1, "order:", clock).0.value);
    NextIdAcrossPrefixes(s, "order", "order:", clock);
  }

  /** A script result of 2^32 is not zero, yet `intValue()` reads it as zero, so it admits. */
  lemma ScriptResultTruncated()
    ensures IntValue(TWO32) == 0
  {}

  // ----- the per-user Redisson lock -----

  /** The lock handleVoucherOrder takes: "lock:order:" + userId. */
  function OrderLockKey(userId: int): string {
    "lock:order:" + LongText(userId)
  }

  /**
   * `RLock.tryLock()`: a free lock is taken, a lock this holder has is taken
   * again (its count goes up), another holder's lock is refused.  None: the
   * key holds something that is not a lock, and the store's error raises.
   */
  function RLockTry(s: Store, key: string, holder: string): (r: (Option<bool>, Store))
    ensures r.0 == Some(false) || r.0.None? ==> r.1 == s
    ensures key !in s ==> r == (Some(true), Put(s, key, Lease(holder, 1), None))
    ensures r.0 == Some(false) <==> key in s && s[key].payload.Lease? && s[key].payload.holder != holder
    ensures key in s && s[key].payload.Lease? && s[key].payload.holder == holder ==>
      r == (Some(true), Put(s, key, Lease(holder, s[key].payload.holds + 1), s[key].expiresAt))
  {
    if key !in s then (Some(true), Put(s, key, Lease(holder, 1), None))
    else match s[key].payload
      case Lease(h, n) =>
        if h == holder then (Some(true), Put(s, key, Lease(h, n + 1), s[key].expiresAt)) else (Some(false), s)
      case _ => (None, s)
  }

  /**
   * `RLock.unlock()`: the holder's count goes down and the key goes at zero.
   * None: the caller does not hold the lock (IllegalMonitorStateException),
   * or the key holds something else.
   */
  function RLockRelease(s: Store, key: string, holder: string): (r: Option<Store>)
    ensures r.Some? <==> key in s && s[key].payload.Lease? && s[key].payload.holder == holder
  {
    if key in s && s[key].payload.Lease? && s[key].payload.holder == holder then
      var n := s[key].payload.holds;
      if n > 1 then Some(Put(s, key, Lease(holder, n - 1), s[key].expiresAt)) else Some(Remove(s, key))
    else None
  }

  /** Taking a free lock and releasing it gives back the store as it was. */
  lemma RLockRoundTrip(s: Store, key: string, holder: string)
    requires key !in s
    ensures RLockRelease(RLockTry(s, key, holder).1, key, holder) == Some(s)
  {
    var taken := RLockTry(s, key, holder).1;
    assert taken[key].payload == Lease(holder, 1);
    assert Remove(taken, key) == s;
  }

  // ----- handleVoucherOrder -----

  /** The consumer's view: whether `proxy` is set, the thread's logged-in user, and its Redisson holder id. */
  datatype Worker = Worker(proxyReady: bool, threadUser: Option<int>, holder: string)

  /**
   * handleVoucherOrder: take the user's lock (a refusal is only logged),
   * call createVoucher through the proxy (raising while `proxy` is null), and
   * in `finally` unlock, which raises for a lock this thread does not hold.
   * The result is whether it returned normally, the tables, and the store.
   */
  function HandleSpec(t: Tables, s: Store, order: VoucherOrder, w: Worker): (r: (bool, Tables, Store))
    ensures var key := OrderLockKey(order.userId);
      var tried := RLockTry(s, key, w.holder);
      (tried.0.None? ==> r == (false, t, s))
      && (tried.0.Some? ==> r.1 == (if w.proxyReady then CreateVoucherSpec(t, order, w.threadUser).1 else t))
      && (tried.0 == Some(false) ==> !r.0 && r.2 == s)
      && (key !in s ==> r.2 == s)
      && (r.0 <==> tried.0 == Some(true) && w.proxyReady && CreateVoucherSpec(t, order, w.threadUser).0.Some?)
  {
    var key := OrderLockKey(order.userId);
    var (acquired, s1) := RLockTry(s, key, w.holder);
    if acquired.None? then (false, t, s)
    else
      var (created, t1) := if w.proxyReady then CreateVoucherSpec(t, order, w.threadUser) else (None, t);
      match RLockRelease(s1, key, w.holder)
      case None => (false, t1, s1)
      case Some(s2) => (created.Some?, t1, s2)
  }

  /**
   * A lock held by someone else does not stop the order: createVoucher still
   * runs, and the unlock of a lock not held then raises.
   */
  lemma HandleIgnoresRefusedLock(t: Tables, s: Store, order: VoucherOrder, w: Worker, other: string, holds: int)
    requires other != w.holder && w.proxyReady
    requires OrderLockKey(order.userId) in s && s[OrderLockKey(order.userId)].payload == Lease(other, holds)
    ensures var r := HandleSpec(t, s, order, w);
      !r.0 && r.1 == CreateVoucherSpec(t, order, w.threadUser).1 && r.2 == s
  {}

  // ----- the order stream and its consumer group -----

  /** Strictly increasing ids. */
  predicate Increasing(xs: seq<nat>) {
    forall i, j :: 0 <= i < j < |xs| ==> xs[i] < xs[j]
  }

  /**
   * The stream's entries (an entry's id is its position), how many the group
   * has delivered, and the consumer's pending ids (delivered, not acknowledged).
   */
  datatype StreamState = StreamState(entries: seq<VoucherOrder>, delivered: nat, pending: seq<nat>)

  predicate StreamValid(st: StreamState) {
    && st.delivered <= |st.entries|
    && Increasing(st.pending)
    && (forall i :: 0 <= i < |st.pending| ==> st.pending[i] < st.delivered)
  }

  /** `xs` without `x`. */
  function Without(xs: seq<nat>, x: nat): (r: seq<nat>)
    ensures forall y :: y in r <==> y in xs && y != x
    ensures Increasing(xs) ==> Increasing(r)
    ensures x in xs ==> |r| < |xs|
    ensures |r| <= |xs|
  {
    if |xs| == 0 then []
    else if xs[0] == x then Without(xs[1..], x)
    else
      var rest := Without(xs[1..], x);
      var r := [xs[0]] + rest;
      assert Increasing(xs) ==> Increasing(r) by {
        if Increasing(xs) {
          forall i, j | 0 <= i < j < |r| ensures r[i] < r[j] {
            assert r[j] == rest[j - 1] && r[j] in xs[1..];
            var k :| 0 <= k < |xs[1..]| && xs[1..][k] == r[j];
            assert xs[k + 1] == r[j];
            if i > 0 {
              assert r[i] == rest[i - 1];
            }
          }
        }
      }
      r
  }

  /** XREADGROUP with ">": the next entry not yet delivered, which becomes pending; None when there is none. */
  function NextUndelivered(st: StreamState): (r: (Option<nat>, StreamState))
    requires StreamValid(st)
    ensures StreamValid(r.1)
    ensures r.0.None? <==> st.delivered == |st.entries|
    ensures r.0.None? ==> r.1 == st
    ensures r.0.Some? ==> r.0.value == st.delivered && r.1 == StreamState(st.entries, st.delivered + 1, st.pending + [st.delivered])
  {
    if st.delivered < |st.entries| then
      (Some(st.delivered), StreamState(st.entries, st.delivered + 1, st.pending + [st.delivered]))
    else (None, st)
  }

  /** XREADGROUP with "0": the oldest pending entry, if any. */
  function OldestPending(st: StreamState): (r: Option<nat>)
    requires StreamValid(st)
    ensures r.None? <==> |st.pending| == 0
    ensures r.Some? ==> r.value in st.pending && r.value < |st.entries|
    ensures r.Some? ==> forall k :: k in st.pending ==> r.value <= k
  {
    if |st.pending| == 0 then None else Some(st.pending[0])
  }

  /** XACK: the id leaves the pending list. */
  function Ack(st: StreamState, id: nat): (r: StreamState)
    requires StreamValid(st)
    ensures StreamValid(r)
    ensures r.entries == st.entries && r.delivered == st.delivered
    ensures forall k :: k in r.pending <==> k in st.pending && k != id
  {
    var rest := Without(st.pending, id);
    assert forall i :: 0 <= i < |rest| ==> rest[i] in st.pending;
    StreamState(st.entries, st.delivered, rest)
  }

  /** Everything the consumer reads and writes. */
  datatype World = World(tables: Tables, kv: Store, stream: StreamState)

  /** One message handled: the order, and the acknowledgement only when handling returned normally. */
  function Process(w: World, c: Worker, id: nat): (r: World)
    requires StreamValid(w.stream) && id < |w.stream.entries|
    ensures StreamValid(r.stream)
    ensures r.stream.entries == w.stream.entries && r.stream.delivered == w.stream.delivered
    ensures var handled := HandleSpec(w.tables, w.kv, w.stream.entries[id], c);
      r.tables == handled.1 && r.kv == handled.2
      && (handled.0 ==> r.stream == Ack(w.stream, id))
      && (!handled.0 ==> r.stream == w.stream)
  {
    var (ok, t1, s1) := HandleSpec(w.tables, w.kv, w.stream.entries[id], c);
    World(t1, s1, if ok then Ack(w.stream, id) else w.stream)
  }

  /** A pending message leaves the pending list exactly when its handling returned normally. */
  lemma AckOnlyAfterSuccess(w: World, c: Worker, id: nat)
    requires StreamValid(w.stream) && id in w.stream.pending
    ensures id < |w.stream.entries|
    ensures id !in Process(w, c, id).stream.pending <==> HandleSpec(w.tables, w.kv, w.stream.entries[id], c).0
  {
    var i :| 0 <= i < |w.stream.pending| && w.stream.pending[i] == id;
  }

  /**
   * handlePendingList, allowed `fuel` handled messages: read the oldest
   * pending entry; stop when there is none; otherwise handle it,
   * acknowledge it on success, and read again.  The flag says whether the
   * loop exited, which it does only once the pending list is empty.
   */
  function RecoverSpec(w: World, c: Worker, fuel: nat): (r: (World, bool))
    requires StreamValid(w.stream)
    ensures StreamValid(r.0.stream)
    ensures r.0.stream.entries == w.stream.entries && r.0.stream.delivered == w.stream.delivered
    ensures r.1 <==> |r.0.stream.pending| == 0
    ensures forall k :: k in r.0.stream.pending ==> k in w.stream.pending
    ensures OldestPending(w.stream).None? ==> r == (w, true)
    ensures OldestPending(w.stream).Some? && fuel == 0 ==> r == (w, false)
    ensures OldestPending(w.stream).Some? && fuel > 0 ==>
      r == RecoverSpec(Process(w, c, OldestPending(w.stream).value), c, fuel - 1)
    decreases fuel
  {
    match OldestPending(w.stream)
    case None => (w, true)
    case Some(id) =>
      if fuel == 0 then (w, false)
      else RecoverSpec(Process(w, c, id), c, fuel - 1)
  }

  /** Removing a value that is not there changes nothing. */
  lemma {:induction false} WithoutAbsent(xs: seq<nat>, x: nat)
    requires x !in xs
    ensures Without(xs, x) == xs
    decreases |xs|
  {
    if |xs| > 0 {
      WithoutAbsent(xs[1..], x);
      assert [xs[0]] + xs[1..] == xs;
    }
  }

  /** Acknowledging the oldest pending id drops the head of the pending list. */
  lemma AckOldest(st: StreamState)
    requires StreamValid(st) && |st.pending| > 0
    ensures Ack(st, st.pending[0]).pending == st.pending[1..]
  {
    assert st.pending[0] !in st.pending[1..];
    WithoutAbsent(st.pending[1..], st.pending[0]);
  }

  /** `p` is what is left of `q` after dropping some of its first elements. */
  predicate IsSuffix(p: seq<nat>, q: seq<nat>) {
    |p| <= |q| && p == q[|q| - |p|..]
  }

  /** A suffix of `q`, or of `q` without its head, is a suffix of `q`. */
  lemma SuffixOfStep(p: seq<nat>, q1: seq<nat>, q: seq<nat>)
    requires |q| > 0 && (q1 == q || q1 == q[1..])
    requires IsSuffix(p, q1)
    ensures IsSuffix(p, q)
  {
    if q1 != q {
      assert q[1..][|q1| - |p|..] == q[|q| - |p|..];
    }
  }

  /** Handling the oldest pending message leaves the pending list whole or without its head. */
  lemma ProcessOldest(w: World, c: Worker)
    requires StreamValid(w.stream) && |w.stream.pending| > 0
    ensures var q1 := Process(w, c, OldestPending(w.stream).value).stream.pending;
      q1 == w.stream.pending || q1 == w.stream.pending[1..]
  {
    if HandleSpec(w.tables, w.kv, w.stream.entries[w.stream.pending[0]], c).0 {
      AckOldest(w.stream);
    }
  }

  /**
   * Recovery works from the oldest pending message: what is still pending
   * afterwards is a suffix of what was pending, so no message is skipped
   * and a later one is never acknowledged before an earlier one.
   */
  lemma {:induction false} RecoverOldestFirst(w: World, c: Worker, fuel: nat)
    requires StreamValid(w.stream)
    ensures IsSuffix(RecoverSpec(w, c, fuel).0.stream.pending, w.stream.pending)
    decreases fuel
  {
    var q := w.stream.pending;
    if |q| > 0 && fuel > 0 {
      var w1 := Process(w, c, OldestPending(w.stream).value);
      ProcessOldest(w, c);
      RecoverOldestFirst(w1, c, fuel - 1);
      SuffixOfStep(RecoverSpec(w1, c, fuel - 1).0.stream.pending, w1.stream.pending, q);
    } else {
      assert q[|q| - |q|..] == q;
    }
  }

  /**
   * One pass of the run loop: read a new message (none: nothing happens);
   * handle it; acknowledge it on success, or on an exception go through
   * the pending list.  The flag is false when that recovery ended with
   * messages still pending: handlePendingList has not returned, so the
   * loop makes no further pass.
   */
  function RunStepSpec(w: World, c: Worker, fuel: nat): (r: (World, bool))
    requires StreamValid(w.stream)
    ensures StreamValid(r.0.stream)
    ensures r.0.stream.entries == w.stream.entries
    ensures r.0.stream.delivered == if w.stream.delivered < |w.stream.entries| then w.stream.delivered + 1 else w.stream.delivered
    ensures w.stream.delivered == |w.stream.entries| ==> r == (w, true)
    ensures w.stream.delivered < |w.stream.entries| ==>
      var id := w.stream.delivered;
      var processed := Process(World(w.tables, w.kv, NextUndelivered(w.stream).1), c, id);
      if HandleSpec(w.tables, w.kv, w.stream.entries[id], c).0
      then r == (processed, true) && id !in r.0.stream.pending
      else id in processed.stream.pending && r == RecoverSpec(processed, c, fuel)
    ensures !r.1 ==> |r.0.stream.pending| > 0
  {
    var (id, st1) := NextUndelivered(w.stream);
    if id.None? then (w, true)
    else
      var w1 := World(w.tables, w.kv, st1);
      var processed := Process(w1, c, id.value);
      if HandleSpec(w.tables, w.kv, st1.entries[id.value], c).0 then (processed, true)
      else RecoverSpec(processed, c, fuel)
  }

  /**
   * `rounds` passes of the run loop, or fewer: after a pass whose recovery
   * did not return, the loop makes no further pass and the flag is false.
   * While every recovery returns, the stream is read in append order:
   * the next `rounds` entries, or all of them, have been delivered.
   */
  function RunSpec(w: World, c: Worker, rounds: nat, fuel: nat): (r: (World, bool))
    requires StreamValid(w.stream)
    ensures StreamValid(r.0.stream)
    ensures r.0.stream.entries == w.stream.entries
    ensures w.stream.delivered <= r.0.stream.delivered <= w.stream.delivered + rounds
    ensures r.1 ==> (r.0.stream.delivered ==
      if w.stream.delivered + rounds <= |w.stream.entries| then w.stream.delivered + rounds else |w.stream.entries|)
    ensures !r.1 ==> |r.0.stream.pending| > 0
    decreases rounds
  {
    if rounds == 0 then (w, true)
    else
      var prev := RunSpec(w, c, rounds - 1, fuel);
      if !prev.1 then prev else RunStepSpec(prev.0, c, fuel)
  }

  /** Once a pass has not returned, further passes change nothing. */
  lemma {:induction false} RunStaysStuck(w: World, c: Worker, n: nat, m: nat, fuel: nat)
    requires StreamValid(w.stream) && n <= m
    requires !RunSpec(w, c, n, fuel).1
    ensures RunSpec(w, c, m, fuel) == RunSpec(w, c, n, fuel)
    decreases m
  {
    if m > n {
      RunStaysStuck(w, c, n, m - 1, fuel);
      var prev := RunSpec(w, c, m - 1, fuel);
      assert !prev.1;
      assert RunSpec(w, c, m, fuel) == prev;
    }
  }

  /**
   * A consumer for which handling always raises -- `proxy` still null, or no
   * logged-in user on its thread -- never gets through the pending list: each
   * pass handles the oldest entry, fails, leaves everything as it was, and
   * reads the same entry again.
   */
  lemma {:induction false} RecoverStuck(w: World, c: Worker, fuel: nat)
    requires StreamValid(w.stream) && |w.stream.pending| > 0
    requires !c.proxyReady || c.threadUser.None?
    requires OrderLockKey(w.stream.entries[w.stream.pending[0]].userId) !in w.kv
    ensures RecoverSpec(w, c, fuel) == (w, false)
    decreases fuel
  {
    if fuel > 0 {
      var id := w.stream.pending[0];
      var handled := HandleSpec(w.tables, w.kv, w.stream.entries[id], c);
      assert !handled.0 && handled.1 == w.tables && handled.2 == w.kv;
      assert Process(w, c, id) == w;
      RecoverStuck(w, c, fuel - 1);
    }
  }

  /**
   * A consumer for which handling always raises stops at its first message:
   * the message stays pending, the recovery never returns, and no later
   * message is read, however many passes are allowed.
   */
  lemma RunStopsAtFirstFailure(w: World, c: Worker, rounds: nat, fuel: nat)
    requires StreamValid(w.stream) && |w.stream.pending| == 0 && w.stream.delivered < |w.stream.entries|
    requires !c.proxyReady || c.threadUser.None?
    requires OrderLockKey(w.stream.entries[w.stream.delivered].userId) !in w.kv
    requires rounds >= 1
    ensures var r := RunSpec(w, c, rounds, fuel);
      !r.1 && r.0.stream.delivered == w.stream.delivered + 1 && r.0.stream.pending == [w.stream.delivered]
  {
    var id := w.stream.delivered;
    var w1 := World(w.tables, w.kv, NextUndelivered(w.stream).1);
    var handled := HandleSpec(w.tables, w.kv, w.stream.entries[id], c);
    assert !handled.0 && handled.1 == w.tables && handled.2 == w.kv;
    assert Process(w1, c, id) == w1;
    RecoverStuck(w1, c, fuel);
    assert RunSpec(w, c, 1, fuel) == (w1, false);
    RunStaysStuck(w, c, 1, rounds, fuel);
  }

  // ----- corrected variant -----

  /** createVoucher checking the order's own user, as the one-order-per-user rule intends. */
  function CreateVoucherFixed(t: Tables, order: VoucherOrder): (r: (Option<Created>, Tables))
    ensures r.0.None? <==> InStock(t, order.voucherId) && !HasOrder(t.orders, order.voucherId, order.userId) && order.id in t.orders
    ensures r.0 == Some(AlreadyOrdered) <==> HasOrder(t.orders, order.voucherId, order.userId)
  {
    CreateVoucherSpec(t, order, Some(order.userId))
  }

  /** The corrected check keeps one order per (voucher, user) on every thread. */
  lemma CreateFixedKeepsOnePerUser(t: Tables, order: VoucherOrder)
    requires OnePerUser(t.orders)
    ensures OnePerUser(CreateVoucherFixed(t, order).1.orders)
  {
    CreateKeepsOnePerUser(t, order);
  }

  /** handleVoucherOrder with the corrected createVoucher. */
  function HandleFixed(t: Tables, s: Store, order: VoucherOrder, proxyReady: bool, holder: string): (r: (bool, Tables, Store))
    ensures RLockTry(s, OrderLockKey(order.userId), holder).0 == Some(false) ==> r == (true, t, s)
    ensures RLockTry(s, OrderLockKey(order.userId), holder).0 != Some(false) ==>
      r == HandleSpec(t, s, order, Worker(proxyReady, Some(order.userId), holder))
  {
    if RLockTry(s, OrderLockKey(order.userId), holder).0 == Some(false) then (true, t, s)
    else HandleSpec(t, s, order, Worker(proxyReady, Some(order.userId), holder))
  }

  /**
   * With the corrected check, a consumer thread with no user of its own
   * handles a message normally once `proxy` is set, the user's lock is free
   * and the order id is new, and leaves the lock free.
   */
  lemma HandleFixedSucceeds(t: Tables, s: Store, order: VoucherOrder, holder: string)
    requires OrderLockKey(order.userId) !in s && order.id !in t.orders
    ensures var r := HandleFixed(t, s, order, true, holder);
      r.0 && r.2 == s
  {}

  /**
   * With the corrected lock handling, a user's lock held by another holder
   * stops the order: nothing is written and the handler returns normally.
   */
  lemma HandleFixedRespectsLock(t: Tables, s: Store, order: VoucherOrder, proxyReady: bool, holder: string,
                                other: string, holds: int)
    requires other != holder
    requires OrderLockKey(order.userId) in s && s[OrderLockKey(order.userId)].payload == Lease(other, holds)
    ensures HandleFixed(t, s, order, proxyReady, holder) == (true, t, s)
  {}

  /** seckillVoucher answering with the id the admission script recorded. */
  function SeckillFixed(s: Store, user: Option<int>, clock: Clock, scriptResult: Option<Long>): (r: (SeckillResult, Store, bool))
    ensures r.0.Ordered? ==> r.1 == NextIdSpec(s, "order", clock).1 && NextIdSpec(s, "order", clock).0 == Some(r.0.id)
    ensures user.None? ==> r == (SeckillRaised, s, false)
  {
    if user.None? then (SeckillRaised, s, false)
    else
      var (orderId, s1) := NextIdSpec(s, "order", clock);
      if orderId.None? || scriptResult.None? then (SeckillRaised, s1, false)
      else if IntValue(scriptResult.value) != 0 then (NotEligible, s1, false)
      else (Ordered(orderId.value), s1, true)
  }

  /**
   * The corrected seckillVoucher admits exactly when the code as written
   * does, and the id the caller gets is the one the order was queued with;
   * the "order:" counter is left alone.
   */
  lemma SeckillFixedReturnsQueuedId(s: Store, user: Option<int>, clock: Clock, scriptResult: Option<Long>)
    requires SeckillSpec(s, user, clock, scriptResult).0.Ordered?
    ensures var fixed := SeckillFixed(s, user, clock, scriptResult);
      fixed.0.Ordered? && fixed.2
      && NextIdSpec(s, "order", clock).0 == Some(fixed.0.id)
      && CountAt(fixed.1, CounterKey("order:", clock.date)) == CountAt(s, CounterKey("order:", clock.date))
  {
    SeckillCountersDiffer(clock.date);
  }

  // ----- the classes -----

  /** The store's stream "stream.order" with group g1 and its consumer c1. */
  class OrderStream {
    var entries: seq<VoucherOrder>
    var delivered: nat
    var pending: seq<nat>

    function State(): StreamState
      reads this
    {
      StreamState(entries, delivered, pending)
    }

    predicate Valid()
      reads this
    {
      StreamValid(State())
    }

    constructor (entries: seq<VoucherOrder>)
      ensures State() == StreamState(entries, 0, []) && Valid()
    {
      this.entries := entries;
      delivered := 0;
      pending := [];
    }

    method ReadNew() returns (id: Option<nat>)
      requires Valid()
      modifies this
      ensures Valid()
      ensures (id, State()) == NextUndelivered(old(State()))
    {
      if delivered < |entries| {
        id := Some(delivered);
        pending := pending + [delivered];
        delivered := delivered + 1;
      } else {
        id := None;
      }
    }

    method ReadPending() returns (id: Option<nat>)
      requires Valid()
      ensures id == OldestPending(State())
    {
      if |pending| == 0 {
        id := None;
      } else {
        id := Some(pending[0]);
      }
    }

    method Acknowledge(id: nat)
      requires Valid()
      modifies this
      ensures Valid()
      ensures State() == Ack(old(State()), id)
    {
      pending := Without(pending, id);
      assert State() == Ack(old(State()), id);
    }
  }

  /** The service: the store, the id worker over it, the stream, the two tables, and the `proxy` field. */
  class VoucherOrderServiceImpl {
    const redis: RedisStore
    const idWorker: RedisIdWorker
    const stream: OrderStream
    var tables: Tables
    var proxyReady: bool

    constructor (redis: RedisStore, stream: OrderStream, tables: Tables)
      ensures this.redis == redis && this.stream == stream && this.tables == tables
      ensures !proxyReady && idWorker.redis == redis
    {
      this.redis := redis;
      this.stream := stream;
      this.tables := tables;
      this.idWorker := new RedisIdWorker(redis);
      proxyReady := false;
    }

    function CurrentWorld(): World
      reads this, redis, stream
    {
      World(tables, redis.kv, stream.State())
    }

    /** createVoucher, called on a thread whose logged-in user is `threadUser`. */
    method CreateVoucher(order: VoucherOrder, threadUser: Option<int>) returns (r: Option<Created>)
      modifies this
      ensures (r, tables) == CreateVoucherSpec(old(tables), order, threadUser)
      ensures proxyReady == old(proxyReady)
    {
      var voucherId := order.voucherId;
      if threadUser.None? {
        return None;
      }
      var userId := threadUser.value;
      if HasOrder(tables.orders, voucherId, userId) {
        return Some(AlreadyOrdered);
      }
      if !InStock(tables, voucherId) {
        return Some(OutOfStock);
      }
      if order.id in tables.orders {
        return None;
      }
      tables := Tables(tables.stock[voucherId := tables.stock[voucherId] - 1], tables.orders[order.id := order]);
      r := Some(Created(voucherId));
    }

    /** seckillVoucher for the request's user, with the admission script's result given. */
    method SeckillVoucher(user: Option<int>, clock: Clock, scriptResult: Option<Long>) returns (r: SeckillResult)
      requires idWorker.redis == redis
      modifies this, redis
      ensures var spec := SeckillSpec(old(redis.kv), user, clock, scriptResult);
        r == spec.0 && redis.kv == spec.1 && proxyReady == (old(proxyReady) || spec.2)
      ensures tables == old(tables)
    {
      if user.None? {
        return SeckillRaised;
      }
      var orderId := idWorker.NextId("order", clock);
      if orderId.None? || scriptResult.None? {
        return SeckillRaised;
      }
      if IntValue(scriptResult.value) != 0 {
        return NotEligible;
      }
      proxyReady := true;
      var id := idWorker.NextId("order:", clock);
      if id.None? {
        return SeckillRaised;
      }
      r := Ordered(id.value);
    }

    /** handleVoucherOrder on a thread with user `threadUser` and Redisson holder id `holder`; false: it raised. */
    method HandleVoucherOrder(order: VoucherOrder, threadUser: Option<int>, holder: string) returns (ok: bool)
      modifies this, redis
      ensures (ok, tables, redis.kv) == HandleSpec(old(tables), old(redis.kv), order, Worker(old(proxyReady), threadUser, holder))
      ensures proxyReady == old(proxyReady)
    {
      var key := "lock:order:" + LongText(order.userId);
      var (acquired, locked) := RLockTry(redis.kv, key, holder);
      if acquired.None? {
        return false;
      }
      redis.kv := locked;
      var created: Option<Created> := None;
      if proxyReady {
        created := CreateVoucher(order, threadUser);
      }
      var released := RLockRelease(redis.kv, key, holder);
      if released.None? {
        return false;
      }
      redis.kv := released.value;
      ok := created.Some?;
    }

    /** handlePendingList, allowed `fuel` handled messages; true when it exited with the list empty. */
    method HandlePendingList(threadUser: Option<int>, holder: string, fuel: nat) returns (drained: bool)
      requires stream.Valid()
      modifies this, redis, stream
      ensures stream.Valid()
      ensures (CurrentWorld(), drained) == RecoverSpec(old(CurrentWorld()), Worker(old(proxyReady), threadUser, holder), fuel)
      ensures proxyReady == old(proxyReady)
    {
      var c := Worker(proxyReady, threadUser, holder);
      var left := fuel;
      drained := false;
      while true
        invariant stream.Valid() && proxyReady == old(proxyReady)
        invariant RecoverSpec(CurrentWorld(), c, left) == RecoverSpec(old(CurrentWorld()), c, fuel)
        decreases left
      {
        var id := stream.ReadPending();
        if id.None? {
          drained := true;
          return;
        }
        if left == 0 {
          return;
        }
        var order := stream.entries[id.value];
        var ok := HandleVoucherOrder(order, threadUser, holder);
        if ok {
          stream.Acknowledge(id.value);
        }
        left := left - 1;
      }
    }

    /** One pass of voucherOrderTask.run's loop; false: handlePendingList has not returned. */
    method RunOnce(threadUser: Option<int>, holder: string, fuel: nat) returns (live: bool)
      requires stream.Valid()
      modifies this, redis, stream
      ensures stream.Valid()
      ensures (CurrentWorld(), live) == RunStepSpec(old(CurrentWorld()), Worker(old(proxyReady), threadUser, holder), fuel)
      ensures proxyReady == old(proxyReady)
    {
      var id := stream.ReadNew();
      if id.None? {
        return true;
      }
      var order := stream.entries[id.value];
      var ok := HandleVoucherOrder(order, threadUser, holder);
      if ok {
        stream.Acknowledge(id.value);
        return true;
      }
      live := HandlePendingList(threadUser, holder, fuel);
    }

    /** voucherOrderTask.run, for up to `rounds` passes of its loop; false: it is stuck in handlePendingList. */
    method Run(threadUser: Option<int>, holder: string, rounds: nat, fuel: nat) returns (live: bool)
      requires stream.Valid()
      modifies this, redis, stream
      ensures stream.Valid()
      ensures (CurrentWorld(), live) == RunSpec(old(CurrentWorld()), Worker(old(proxyReady), threadUser, holder), rounds, fuel)
    {
      var c := Worker(proxyReady, threadUser, holder);
      ghost var start := CurrentWorld();
      var done := 0;
      live := true;
      while done < rounds && live
        invariant done <= rounds && stream.Valid() && proxyReady == old(proxyReady)
        invariant (CurrentWorld(), live) == RunSpec(start, c, done, fuel)
      {
        live := RunOnce(threadUser, holder, fuel);
        done := done + 1;
      }
      if done < rounds {
        RunStaysStuck(start, c, done, rounds, fuel);
      }
    }
  }
}
