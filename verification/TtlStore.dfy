/**
 * The in-memory key-value store with expiry (internal/store/store.go), and the
 * proof that lazy reaping and the background sweep are invisible to callers.
 */
module TtlStore {
  import opened Common

  datatype Value = Text(text: string) | Number(number: int)

  /** `None` means no expiry. */
  datatype Entry = Entry(value: Value, exp: Option<int>)

  type Data = map<string, Entry>

  predicate Expired(e: Entry, now: int) {
    e.exp.Some? && now > e.exp.value
  }

  predicate LiveAt(data: Data, key: string, now: int) {
    key in data && !Expired(data[key], now)
  }

  function Deadline(now: int, ttl: int): Option<int> {
    if ttl > 0 then Some(now + ttl) else None
  }

  /** The textual form in which a lock owner is compared. */
  function Printed(v: Value): string {
    match v
    case Text(s) => s
    case Number(n) => if n < 0 then "-" + Digits(-n) else Digits(n)
  }

  function Counter(v: Value): int {
    if v.Number? then v.number else 0
  }

  /** Sweep names the expired keys that one batch of the sweeper happens to visit. */
  datatype Op =
    | Get(key: string)
    | Take(key: string)
    | Set(key: string, value: Value, ttl: int)
    | SetNX(key: string, value: Value, ttl: int)
    | IncrBy(key: string, delta: int, ttl: int)
    | Delete(key: string)
    | Renew(key: string, ttl: int)
    | RenewIfOwner(key: string, owner: string, ttl: int)
    | DeleteIfOwner(key: string, owner: string)
    | Sweep(victims: set<string>)

  datatype Reply = Nothing | Absent | Present(value: Value) | Flag(yes: bool) | Count(n: int)

  // ----- The store as written -----

  function Apply(data: Data, now: int, op: Op): (Data, Reply) {
    match op
    case Get(k) =>
      if k !in data then (data, Absent)
      else if Expired(data[k], now) then (data - {k}, Absent)
      else (data, Present(data[k].value))
    case Take(k) =>
      if k !in data then (data, Absent)
      else (data - {k}, if Expired(data[k], now) then Absent else Present(data[k].value))
    case Set(k, v, ttl) => (data[k := Entry(v, Deadline(now, ttl))], Nothing)
    case SetNX(k, v, ttl) =>
      if LiveAt(data, k, now) then (data, Flag(false)) else (data[k := Entry(v, Deadline(now, ttl))], Flag(true))
    case IncrBy(k, delta, ttl) =>
      if LiveAt(data, k, now) then
        var n := Counter(data[k].value) + delta;
        (data[k := Entry(Number(n), data[k].exp)], Count(n))
      else (data[k := Entry(Number(delta), Deadline(now, ttl))], Count(delta))
    case Delete(k) => (data - {k}, Nothing)
    case Renew(k, ttl) =>
      if LiveAt(data, k, now) then (data[k := Entry(data[k].value, Deadline(now, ttl))], Flag(true)) else (data, Flag(false))
    case RenewIfOwner(k, owner, ttl) =>
      if !LiveAt(data, k, now) || Printed(data[k].value) != owner then (data, Flag(false))
      else if ttl > 0 then (data[k := data[k].(exp := Some(now + ttl))], Flag(true))
      else (data, Flag(true))
    case DeleteIfOwner(k, owner) =>
      (if k in data && Printed(data[k].value) == owner then data - {k} else data, Nothing)
    case Sweep(victims) => (map k | k in data && !(k in victims && Expired(data[k], now)) :: data[k], Nothing)
  }

  // ----- The reference: a plain map of the live entries -----

  function Live(data: Data, now: int): Data {
    map k | k in data && !Expired(data[k], now) :: data[k]
  }

  /** Ordinary map operations; time enters only through the deadline of a new entry. */
  function Plain(m: Data, now: int, op: Op): (Data, Reply) {
    match op
    case Get(k) => (m, if k in m then Present(m[k].value) else Absent)
    case Take(k) => (m - {k}, if k in m then Present(m[k].value) else Absent)
    case Set(k, v, ttl) => (m[k := Entry(v, Deadline(now, ttl))], Nothing)
    case SetNX(k, v, ttl) => (if k in m then m else m[k := Entry(v, Deadline(now, ttl))], Flag(k !in m))
    case IncrBy(k, delta, ttl) =>
      var e := if k in m then Entry(Number(Counter(m[k].value) + delta), m[k].exp) else Entry(Number(delta), Deadline(now, ttl));
      (m[k := e], Count(e.value.number))
    case Delete(k) => (m - {k}, Nothing)
    case Renew(k, ttl) => (if k in m then m[k := Entry(m[k].value, Deadline(now, ttl))] else m, Flag(k in m))
    case RenewIfOwner(k, owner, ttl) =>
      var mine := k in m && Printed(m[k].value) == owner;
      (if mine && ttl > 0 then m[k := Entry(m[k].value, Deadline(now, ttl))] else m, Flag(mine))
    case DeleteIfOwner(k, owner) => (if k in m && Printed(m[k].value) == owner then m - {k} else m, Nothing)
    case Sweep(_) => (m, Nothing)
  }

  datatype Call = Call(now: int, op: Op)

  predicate Ordered(calls: seq<Call>, from: int) {
    calls == [] || (from <= calls[0].now && Ordered(calls[1..], calls[0].now))
  }

  function Replies(data: Data, calls: seq<Call>): seq<Reply>
    decreases |calls|
  {
    if calls == [] then []
    else
      var (data', r) := Apply(data, calls[0].now, calls[0].op);
      [r] + Replies(data', calls[1..])
  }

  /** The reference forgets everything expired before each call. */
  function PlainReplies(m: Data, calls: seq<Call>): seq<Reply>
    decreases |calls|
  {
    if calls == [] then []
    else
      var (m', r) := Plain(Live(m, calls[0].now), calls[0].now, calls[0].op);
      [r] + PlainReplies(m', calls[1..])
  }

  lemma ApplyIsPlain(data: Data, now: int, op: Op)
    ensures Apply(data, now, op).1 == Plain(Live(data, now), now, op).1
    ensures Live(Apply(data, now, op).0, now) == Live(Plain(Live(data, now), now, op).0, now)
  {
    if op.Get? || op.Take? || op.Set? || op.SetNX? || op.IncrBy? { ReadWriteIsPlain(data, now, op); } else { RestIsPlain(data, now, op); }
  }

  lemma ReadWriteIsPlain(data: Data, now: int, op: Op)
    requires op.Get? || op.Take? || op.Set? || op.SetNX? || op.IncrBy?
    ensures Apply(data, now, op).1 == Plain(Live(data, now), now, op).1
    ensures Live(Apply(data, now, op).0, now) == Live(Plain(Live(data, now), now, op).0, now)
  {
  }

  lemma RestIsPlain(data: Data, now: int, op: Op)
    requires !(op.Get? || op.Take? || op.Set? || op.SetNX? || op.IncrBy?)
    ensures Apply(data, now, op).1 == Plain(Live(data, now), now, op).1
    ensures Live(Apply(data, now, op).0, now) == Live(Plain(Live(data, now), now, op).0, now)
  {
  }

  /**
   * For every history on a nondecreasing clock the store answers exactly like
   * the plain map: no reaping, and no sweep of any batch of expired keys at any
   * moment, ever changes a later reply.
   */
  lemma {:induction false} StoreRefinesPlainMap(data: Data, m: Data, calls: seq<Call>, t: int)
    requires Live(data, t) == Live(m, t) && Ordered(calls, t)
    ensures Replies(data, calls) == PlainReplies(m, calls)
    decreases |calls|
  {
    if calls != [] {
      var now, op := calls[0].now, calls[0].op;
      LiveLater(data, t, now);
      LiveLater(m, t, now);
      ApplyIsPlain(data, now, op);
      StoreRefinesPlainMap(Apply(data, now, op).0, Plain(Live(m, now), now, op).0, calls[1..], now);
    }
  }

  lemma LiveLater(data: Data, t: int, now: int)
    requires t <= now
    ensures Live(Live(data, t), now) == Live(data, now)
  {
  }

  /** Sweeps can be dropped from a history without changing any other reply. */
  function Unswept(calls: seq<Call>): seq<Call> {
    if calls == [] then []
    else (if calls[0].op.Sweep? then [] else [calls[0]]) + Unswept(calls[1..])
  }

  function Kept(calls: seq<Call>, replies: seq<Reply>): seq<Reply>
    requires |calls| == |replies|
    decreases |calls|
  {
    if calls == [] then []
    else (if calls[0].op.Sweep? then [] else [replies[0]]) + Kept(calls[1..], replies[1..])
  }

  lemma {:induction false} RepliesLength(data: Data, calls: seq<Call>)
    ensures |Replies(data, calls)| == |calls|
    decreases |calls|
  {
    if calls != [] { RepliesLength(Apply(data, calls[0].now, calls[0].op).0, calls[1..]); }
  }

  lemma {:induction false} SweepsInvisible(data: Data, data': Data, calls: seq<Call>, t: int)
    requires Live(data, t) == Live(data', t) && Ordered(calls, t)
    ensures |Replies(data, calls)| == |calls|
    ensures Kept(calls, Replies(data, calls)) == Replies(data', Unswept(calls))
    decreases |calls|
  {
    RepliesLength(data, calls);
    if calls != [] {
      var now, op := calls[0].now, calls[0].op;
      LiveLater(data, t, now);
      LiveLater(data', t, now);
      ApplyIsPlain(data, now, op);
      ApplyIsPlain(data', now, op);
      var rest := Replies(Apply(data, now, op).0, calls[1..]);
      assert Replies(data, calls)[1..] == rest;
      if op.Sweep? {
        SweepsInvisible(Apply(data, now, op).0, data', calls[1..], now);
        assert Unswept(calls) == Unswept(calls[1..]);
      } else {
        SweepsInvisible(Apply(data, now, op).0, Apply(data', now, op).0, calls[1..], now);
        assert Unswept(calls) == [calls[0]] + Unswept(calls[1..]);
        assert Unswept(calls)[1..] == Unswept(calls[1..]);
      }
    }
  }

  // ----- Positions in a history -----

  /** The contents after the first `n` calls. */
  function After(data: Data, calls: seq<Call>, n: nat): Data
    requires n <= |calls|
  {
    if n == 0 then data else Apply(After(data, calls, n - 1), calls[n - 1].now, calls[n - 1].op).0
  }

  function ReplyAt(data: Data, calls: seq<Call>, n: nat): Reply
    requires n < |calls|
  {
    Apply(After(data, calls, n), calls[n].now, calls[n].op).1
  }

  ghost predicate Clocked(calls: seq<Call>) {
    forall i, j | 0 <= i <= j < |calls| :: calls[i].now <= calls[j].now
  }

  /** The call can affect the entry under `key`. */
  predicate Touches(op: Op, key: string) {
    !op.Sweep? && op.key == key
  }

  /** Calls on other keys leave an entry alone, and sweeps do so while it is live. */
  lemma Untouched(data: Data, now: int, op: Op, key: string)
    requires !Touches(op, key)
    ensures op.Sweep? || ((key in Apply(data, now, op).0 <==> key in data) && (key in data ==> Apply(data, now, op).0[key] == data[key]))
    ensures op.Sweep? && LiveAt(data, key, now) ==> key in Apply(data, now, op).0 && Apply(data, now, op).0[key] == data[key]
    ensures op.Sweep? && key in Apply(data, now, op).0 ==> key in data && Apply(data, now, op).0[key] == data[key]
  {
  }

  // ----- The object -----

  const BATCH := 1000

  class InMemoryStore {
    var data: Data

    constructor ()
      ensures data == map[]
    {
      data := map[];
    }

    method Get(key: string, now: int) returns (r: Reply)
      modifies this
      ensures (data, r) == Apply(old(data), now, Op.Get(key))
    {
      if key !in data {
        return Absent;
      }
      if Expired(data[key], now) {
        data := data - {key};
        return Absent;
      }
      return Present(data[key].value);
    }

    method Take(key: string, now: int) returns (r: Reply)
      modifies this
      ensures (data, r) == Apply(old(data), now, Op.Take(key))
    {
      if key !in data {
        return Absent;
      }
      var e := data[key];
      data := data - {key};
      return if Expired(e, now) then Absent else Present(e.value);
    }

    method Set(key: string, value: Value, ttl: int, now: int)
      modifies this
      ensures data == Apply(old(data), now, Op.Set(key, value, ttl)).0
    {
      data := data[key := Entry(value, Deadline(now, ttl))];
    }

    method SetNX(key: string, value: Value, ttl: int, now: int) returns (wrote: bool)
      modifies this
      ensures (data, Flag(wrote)) == Apply(old(data), now, Op.SetNX(key, value, ttl))
    {
      if key in data && !Expired(data[key], now) {
        return false;
      }
      data := data[key := Entry(value, Deadline(now, ttl))];
      return true;
    }

    method IncrBy(key: string, delta: int, ttl: int, now: int) returns (n: int)
      modifies this
      ensures (data, Count(n)) == Apply(old(data), now, Op.IncrBy(key, delta, ttl))
    {
      if key in data && !Expired(data[key], now) {
        var current := 0;
        if data[key].value.Number? {
          current := data[key].value.number;
        }
        data := data[key := Entry(Number(current + delta), data[key].exp)];
        return current + delta;
      }
      data := data[key := Entry(Number(delta), Deadline(now, ttl))];
      return delta;
    }

    method Delete(key: string)
      modifies this
      ensures data == Apply(old(data), 0, Op.Delete(key)).0
    {
      data := data - {key};
    }

    method Renew(key: string, ttl: int, now: int) returns (renewed: bool)
      modifies this
      ensures (data, Flag(renewed)) == Apply(old(data), now, Op.Renew(key, ttl))
    {
      if key !in data || Expired(data[key], now) {
        return false;
      }
      data := data[key := Entry(data[key].value, Deadline(now, ttl))];
      return true;
    }

    method RenewIfOwner(key: string, owner: string, ttl: int, now: int) returns (renewed: bool)
      modifies this
      ensures (data, Flag(renewed)) == Apply(old(data), now, Op.RenewIfOwner(key, owner, ttl))
    {
      if key !in data || Expired(data[key], now) {
        return false;
      }
      if Printed(data[key].value) != owner {
        return false;
      }
      if ttl > 0 {
        data := data[key := data[key].(exp := Some(now + ttl))];
      }
      return true;
    }

    method DeleteIfOwner(key: string, owner: string) returns (deleted: bool)
      modifies this
      ensures data == Apply(old(data), 0, Op.DeleteIfOwner(key, owner)).0
      ensures deleted <==> key in old(data) && Printed(old(data)[key].value) == owner
    {
      if key !in data || Printed(data[key].value) != owner {
        return false;
      }
      data := data - {key};
      return true;
    }

    /**
     * Collects at most a batch of expired keys, then deletes those. Only expired
     * entries go, and a short batch means none is left.
     */
    method Sweep(now: int) returns (victims: set<string>)
      modifies this
      ensures data == Apply(old(data), now, Op.Sweep(victims)).0
      ensures |victims| <= BATCH && forall k | k in victims :: k in old(data) && Expired(old(data)[k], now)
      ensures |victims| < BATCH ==> forall k | k in data :: !Expired(data[k], now)
    {
      victims := {};
      var unseen := data.Keys;
      while unseen != {} && |victims| < BATCH
        invariant unseen <= data.Keys && |victims| <= BATCH && data == old(data)
        invariant forall k | k in victims :: k in data && Expired(data[k], now) && k !in unseen
        invariant forall k | k in data && k !in unseen && Expired(data[k], now) :: k in victims
        decreases |unseen|
      {
        var k :| k in unseen;
        unseen := unseen - {k};
        if Expired(data[k], now) {
          victims := victims + {k};
        }
      }
      data := data - victims;
    }
  }
}
