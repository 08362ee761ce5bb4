/** Fixed-window counters: how many requests a limit lets through, and the Redis script as a counterpart. */
module RateWindow {
  import opened Common
  import opened TtlStore

  // ----- Counting admissions on the in-memory store -----

  /** The counter's key is only ever counted up by one, read, or swept. */
  predicate Dedicated(calls: seq<Call>, key: string, ttl: int) {
    forall i | 0 <= i < |calls| :: CounterCall(calls[i].op, key, ttl)
  }

  predicate CounterCall(op: Op, key: string, ttl: int) {
    !Touches(op, key) || op == IncrBy(key, 1, ttl) || op == Get(key)
  }

  /** One request passes the limiter: its increment is within the limit. */
  predicate Passes(data: Data, c: Call, key: string, limit: nat) {
    c.op.IncrBy? && c.op.key == key && Apply(data, c.now, c.op).1.n <= limit
  }

  /** How many requests with a time in [lo, hi] pass, rejected ones included in the history. */
  function Passed(data: Data, calls: seq<Call>, key: string, limit: nat, lo: int, hi: int): nat
    decreases |calls|
  {
    if calls == [] then 0
    else
      var c := calls[0];
      (if lo <= c.now <= hi && Passes(data, c, key, limit) then 1 else 0)
      + Passed(Apply(data, c.now, c.op).0, calls[1..], key, limit, lo, hi)
  }

  /** The entry, if any, is a running window. */
  predicate Window(data: Data, key: string) {
    key in data ==> data[key].value.Number? && data[key].value.number >= 0 && data[key].exp.Some?
  }

  function Remaining(data: Data, key: string, limit: nat, now: int): nat {
    if LiveAt(data, key, now) && Counter(data[key].value) <= limit && Counter(data[key].value) >= 0
    then limit - Counter(data[key].value) else 0
  }

  lemma {:induction false} NothingAfter(data: Data, calls: seq<Call>, key: string, limit: nat, lo: int, hi: int, from: int)
    requires Ordered(calls, from) && from > hi
    ensures Passed(data, calls, key, limit, lo, hi) == 0
    decreases |calls|
  {
    if calls != [] {
      NothingAfter(Apply(data, calls[0].now, calls[0].op).0, calls[1..], key, limit, lo, hi, calls[0].now);
    }
  }

  /**
   * From a window that cannot reopen before `s`, a stretch that ends within `k`
   * window lengths of `s` passes what the window has left plus `k` full limits.
   */
  lemma {:induction false} WindowsBound(
    data: Data, calls: seq<Call>, key: string, limit: nat, ttl: int, lo: int, hi: int, from: int, s: int, k: nat)
    requires ttl > 0 && Ordered(calls, from) && Dedicated(calls, key, ttl) && Window(data, key)
    requires hi <= s + k * ttl
    requires if LiveAt(data, key, from) then data[key].exp.value >= s else from > s
    ensures Passed(data, calls, key, limit, lo, hi) <= Remaining(data, key, limit, from) + k * limit
    decreases |calls|
  {
    if calls == [] { return; }
    var c, rest := calls[0], calls[1..];
    var data' := Apply(data, c.now, c.op).0;
    assert CounterCall(c.op, key, ttl);
    assert Dedicated(rest, key, ttl) by {
      forall i | 0 <= i < |rest| ensures CounterCall(rest[i].op, key, ttl) { assert rest[i] == calls[i + 1]; }
    }
    if c.now > hi {
      NothingAfter(data', rest, key, limit, lo, hi, c.now);
    } else if Touches(c.op, key) && c.op.IncrBy? && !LiveAt(data, key, c.now) {
      assert k >= 1;
      assert hi <= (s + ttl) + (k - 1) * ttl;
      WindowsBound(data', rest, key, limit, ttl, lo, hi, c.now, s + ttl, k - 1);
      assert k * limit == limit + (k - 1) * limit;
    } else {
      if !Touches(c.op, key) { Untouched(data, c.now, c.op, key); }
      WindowsBound(data', rest, key, limit, ttl, lo, hi, c.now, s, k);
    }
  }

  /**
   * In any interval of `k` window lengths, a counter that admits while IncrBy
   * stays within the limit lets at most (k + 1) * limit requests through,
   * whatever else the store is used for and however many requests are rejected.
   */
  lemma {:induction false} FixedWindowBound(
    data: Data, calls: seq<Call>, key: string, limit: nat, ttl: int, lo: int, k: nat, from: int)
    requires ttl > 0 && Ordered(calls, from) && Dedicated(calls, key, ttl) && Window(data, key)
    ensures Passed(data, calls, key, limit, lo, lo + k * ttl) <= (k + 1) * limit
    decreases |calls|
  {
    if calls == [] { return; }
    var c, rest := calls[0], calls[1..];
    var hi := lo + k * ttl;
    assert (k + 1) * limit == k * limit + limit;
    if c.now >= lo {
      assert Ordered(calls, c.now);
      if LiveAt(data, key, c.now) {
        WindowsBound(data, calls, key, limit, ttl, lo, hi, c.now, lo, k);
      } else {
        assert hi <= (lo - 1) + (k + 1) * ttl by { assert (k + 1) * ttl == k * ttl + ttl; }
        WindowsBound(data, calls, key, limit, ttl, lo, hi, c.now, lo - 1, k + 1);
      }
    } else {
      assert CounterCall(c.op, key, ttl);
      assert Dedicated(rest, key, ttl) by {
        forall i | 0 <= i < |rest| ensures CounterCall(rest[i].op, key, ttl) { assert rest[i] == calls[i + 1]; }
      }
      if !Touches(c.op, key) { Untouched(data, c.now, c.op, key); }
      FixedWindowBound(Apply(data, c.now, c.op).0, rest, key, limit, ttl, lo, k, c.now);
    }
  }

  // ----- The Redis script -----

  /** A counter key on the server; `deadline` is None for a key without PEXPIRE. */
  datatype RedisKey = Missing | Held(n: int, deadline: Option<int>)

  /** Whether a key is already gone at its exact deadline is the server's choice: `early` says yes. */
  predicate Gone(r: RedisKey, now: int, early: bool) {
    r.Missing? || (r.deadline.Some? && (now > r.deadline.value || (early && now == r.deadline.value)))
  }

  /** INCRBY, then PEXPIRE when the increment created the key, which the script reads off n == delta. */
  function Script(r: RedisKey, now: int, delta: int, ttl: int, early: bool): (RedisKey, int) {
    var created := Gone(r, now, early);
    var n := (if created then 0 else r.n) + delta;
    var kept := if created then None else r.deadline;
    (Held(n, if ttl > 0 && n == delta then Some(now + ttl) else kept), n)
  }

  datatype Hit = Hit(now: int, delta: int, ttl: int)

  predicate Countable(hits: seq<Hit>) {
    forall i | 0 <= i < |hits| :: hits[i].delta > 0 && hits[i].ttl > 0
  }

  function RedisCounts(r: RedisKey, hits: seq<Hit>, early: bool): seq<int>
    decreases |hits|
  {
    if hits == [] then []
    else
      var (r', n) := Script(r, hits[0].now, hits[0].delta, hits[0].ttl, early);
      [n] + RedisCounts(r', hits[1..], early)
  }

  function StoreCounts(data: Data, key: string, hits: seq<Hit>): seq<int>
    decreases |hits|
  {
    if hits == [] then []
    else
      var (data', reply) := Apply(data, hits[0].now, IncrBy(key, hits[0].delta, hits[0].ttl));
      [reply.n] + StoreCounts(data', key, hits[1..])
  }

  /** Some hit falls on the exact deadline of the window then running. */
  predicate HitsDeadline(data: Data, key: string, hits: seq<Hit>)
    decreases |hits|
  {
    hits != [] && (
      || (key in data && data[key].exp == Some(hits[0].now))
      || HitsDeadline(Apply(data, hits[0].now, IncrBy(key, hits[0].delta, hits[0].ttl)).0, key, hits[1..]))
  }

  predicate SameCounter(data: Data, key: string, r: RedisKey) {
    if key in data
    then data[key].value.Number? && data[key].value.number > 0 && data[key].exp.Some?
         && r == Held(data[key].value.number, data[key].exp)
    else r.Missing?
  }

  /**
   * On positive deltas and TTLs both backends return the same counts for every
   * history, clock order aside, except that a server which drops keys at their
   * exact deadline differs precisely when some hit falls on one.
   */
  lemma {:induction false} RedisAgrees(data: Data, key: string, r: RedisKey, hits: seq<Hit>, early: bool)
    requires Countable(hits) && SameCounter(data, key, r)
    ensures RedisCounts(r, hits, early) == StoreCounts(data, key, hits) <==> !early || !HitsDeadline(data, key, hits)
    decreases |hits|
  {
    if hits != [] {
      var h, rest := hits[0], hits[1..];
      var (r', n) := Script(r, h.now, h.delta, h.ttl, early);
      var (data', reply) := Apply(data, h.now, IncrBy(key, h.delta, h.ttl));
      assert RedisCounts(r, hits, early)[0] == n && StoreCounts(data, key, hits)[0] == reply.n;
      assert RedisCounts(r, hits, early)[1..] == RedisCounts(r', rest, early);
      assert StoreCounts(data, key, hits)[1..] == StoreCounts(data', key, rest);
      if !(early && key in data && data[key].exp == Some(h.now)) {
        assert n == reply.n && SameCounter(data', key, r');
        RedisAgrees(data', key, r', rest, early);
      }
    }
  }
}
