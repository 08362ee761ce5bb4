/** Leader election over a shared store: leases of different instances never overlap (internal/jobs/leader.go). */
module LeaderLease {
  import opened Common
  import opened TtlStore

  /** What the runners do to the lock key; everything else in the history concerns other keys or sweeps. */
  predicate LockCall(op: Op, lock: string, ttl: int) {
    || !Touches(op, lock)
    || (op.SetNX? && op.value.Text? && op.ttl == ttl)
    || (op.RenewIfOwner? && op.ttl == ttl)
    || op.DeleteIfOwner?
  }

  predicate LockHistory(calls: seq<Call>, lock: string, ttl: int) {
    forall i | 0 <= i < |calls| :: LockCall(calls[i].op, lock, ttl)
  }

  /** At call `n` the runner `who` asked for the lock, and was told it leads. */
  predicate Leads(data: Data, calls: seq<Call>, lock: string, n: nat, who: string)
    requires n < |calls|
  {
    var op := calls[n].op;
    && ((op.SetNX? && op.key == lock && op.value == Text(who)) || (op.RenewIfOwner? && op.key == lock && op.owner == who))
    && ReplyAt(data, calls, n) == Flag(true)
  }

  predicate Releases(calls: seq<Call>, lock: string, n: nat, who: string)
    requires n < |calls|
  {
    calls[n].op == DeleteIfOwner(lock, who)
  }

  /** After leading at `i`, the runner neither led again nor released before call `j`. */
  predicate LastWord(data: Data, calls: seq<Call>, lock: string, i: nat, j: nat, who: string)
    requires j <= |calls|
  {
    && i < j
    && Leads(data, calls, lock, i, who)
    && forall m | i < m < j :: Silent(data, calls, lock, m, who)
  }

  predicate Silent(data: Data, calls: seq<Call>, lock: string, n: nat, who: string)
    requires n < |calls|
  {
    !Leads(data, calls, lock, n, who) && !Releases(calls, lock, n, who)
  }

  /**
   * Until its lease has run out, the lock entry is the one written by the
   * leader's last affirmative answer: no other runner, read, or sweep moves it.
   */
  lemma {:induction false} LeaseHolds(data: Data, calls: seq<Call>, lock: string, ttl: int, i: nat, j: nat, who: string, now: int)
    requires ttl > 0 && LockHistory(calls, lock, ttl) && Clocked(calls)
    requires j <= |calls| && LastWord(data, calls, lock, i, j, who)
    requires calls[j - 1].now <= now <= calls[i].now + ttl
    ensures var d := After(data, calls, j);
      lock in d && Printed(d[lock].value) == who && d[lock].exp == Some(calls[i].now + ttl)
    decreases j - i
  {
    var c := calls[j - 1];
    var d := After(data, calls, j - 1);
    assert LockCall(c.op, lock, ttl);
    if j - 1 == i {
      LeaseStarts(data, calls, lock, ttl, i, who);
    } else {
      assert Silent(data, calls, lock, j - 1, who);
      LeaseHolds(data, calls, lock, ttl, i, j - 1, who, c.now);
      if Touches(c.op, lock) { LeaseWithstands(d, c, lock, ttl, who); } else { Untouched(d, c.now, c.op, lock); }
    }
  }

  /** An affirmative answer leaves the lock in the runner's name, for a full TTL. */
  lemma LeaseStarts(data: Data, calls: seq<Call>, lock: string, ttl: int, i: nat, who: string)
    requires ttl > 0 && i < |calls| && LockCall(calls[i].op, lock, ttl) && Leads(data, calls, lock, i, who)
    ensures var d := After(data, calls, i + 1);
      lock in d && Printed(d[lock].value) == who && d[lock].exp == Some(calls[i].now + ttl)
  {
  }

  /** A call on the lock that neither lets `who` lead again nor releases it leaves a live lease of `who` alone. */
  lemma LeaseWithstands(d: Data, c: Call, lock: string, ttl: int, who: string)
    requires LiveAt(d, lock, c.now) && Printed(d[lock].value) == who && LockCall(c.op, lock, ttl) && Touches(c.op, lock)
    requires c.op != DeleteIfOwner(lock, who)
    requires c.op.RenewIfOwner? && c.op.owner == who ==> Apply(d, c.now, c.op).1 != Flag(true)
    ensures lock in Apply(d, c.now, c.op).0 && Apply(d, c.now, c.op).0[lock] == d[lock]
  {
  }

  /**
   * If two different runners are told they lead, the later answer comes more
   * than a lock TTL after the earlier runner's last such answer, unless that
   * runner released the lock in between.
   */
  lemma LeasesDisjoint(data: Data, calls: seq<Call>, lock: string, ttl: int, i: nat, j: nat, a: string, b: string)
    requires ttl > 0 && LockHistory(calls, lock, ttl) && Clocked(calls)
    requires j < |calls| && a != b && LastWord(data, calls, lock, i, j, a) && Leads(data, calls, lock, j, b)
    ensures calls[j].now > calls[i].now + ttl
  {
    if calls[j].now <= calls[i].now + ttl {
      LeaseHolds(data, calls, lock, ttl, i, j, a, calls[j].now);
    }
  }

  /** A leader that renews within the lock TTL of its last affirmative answer keeps the lock. */
  lemma PunctualLeaderStays(data: Data, calls: seq<Call>, lock: string, ttl: int, i: nat, j: nat, who: string)
    requires ttl > 0 && LockHistory(calls, lock, ttl) && Clocked(calls)
    requires j < |calls| && LastWord(data, calls, lock, i, j, who)
    requires calls[j].now <= calls[i].now + ttl && calls[j].op == RenewIfOwner(lock, who, ttl)
    ensures Leads(data, calls, lock, j, who)
  {
    LeaseHolds(data, calls, lock, ttl, i, j, who, calls[j].now);
  }

  // ----- The runner -----

  class LeaderRunner {
    const kv: InMemoryStore
    const lockKey: string
    const self: string
    const lockTTL: int

    constructor (kv: InMemoryStore, name: string, self: string, lockTTL: int)
      ensures this.kv == kv && this.lockKey == "jobs:leader:" + name && this.self == self && this.lockTTL == lockTTL
    {
      this.kv, this.lockKey, this.self, this.lockTTL := kv, "jobs:leader:" + name, self, lockTTL;
    }

    /** Claim, else renew: two atomic store calls, at `claimAt` and `renewAt`. */
    method IsLeader(claimAt: int, renewAt: int) returns (leads: bool)
      modifies kv
      ensures var (d, r) := Apply(old(kv.data), claimAt, SetNX(lockKey, Text(self), lockTTL));
        if r == Flag(true) then leads && kv.data == d
        else Apply(d, renewAt, RenewIfOwner(lockKey, self, lockTTL)) == (kv.data, Flag(leads))
      ensures leads && claimAt == renewAt ==> lockKey in kv.data && Printed(kv.data[lockKey].value) == self && LiveAt(kv.data, lockKey, renewAt)
    {
      leads := kv.SetNX(lockKey, Text(self), lockTTL, claimAt);
      if !leads {
        leads := kv.RenewIfOwner(lockKey, self, lockTTL, renewAt);
      }
    }

    /** Drops the lock only while it still names this runner. */
    method ReleaseLock()
      modifies kv
      ensures lockKey in old(kv.data) && Printed(old(kv.data)[lockKey].value) == self ==> kv.data == old(kv.data) - {lockKey}
      ensures !(lockKey in old(kv.data) && Printed(old(kv.data)[lockKey].value) == self) ==> kv.data == old(kv.data)
    {
      var _ := kv.DeleteIfOwner(lockKey, self);
    }
  }
}
