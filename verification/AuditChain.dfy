/** Checking a slice of the hash chain, and why the check pins the slice down. */
module AuditChain {
  import opened Common
  import opened AuditEvent

  /** The hash in force before row `i` of a slice that starts from `start`. */
  function HashAt(start: Hash, rows: seq<AuditLog>, i: nat): Hash
    requires i <= |rows|
  {
    if i == 0 then start else rows[i - 1].recordHash
  }

  predicate LinkedRow(tenant: string, first: nat, start: Hash, rows: seq<AuditLog>, i: nat)
    requires i < |rows|
  {
    && rows[i].tenantID == tenant
    && rows[i].sequence == Some(first + i + 1)
    && rows[i].prevHash == HashAt(start, rows, i)
  }

  predicate VerifiedRow(mac: Mac, k: Keys, tenant: string, base: Checkpoint, rows: seq<AuditLog>, i: nat)
    requires i < |rows|
  {
    LinkedRow(tenant, base.sequence, base.hash, rows, i) && Verify(mac, k, rows[i])
  }

  /** The rows carry consecutive sequences after `base`, each naming its predecessor's hash, and end at `end`. */
  predicate VerifiedSlice(mac: Mac, k: Keys, tenant: string, base: Checkpoint, end: Checkpoint, rows: seq<AuditLog>) {
    && base.tenant == tenant
    && end.tenant == tenant
    && VerifyCheckpoint(mac, k, base)
    && VerifyCheckpoint(mac, k, end)
    && (forall i | 0 <= i < |rows| :: VerifiedRow(mac, k, tenant, base, rows, i))
    && end.sequence == base.sequence + |rows|
    && end.hash == HashAt(base.hash, rows, |rows|)
  }

  method VerifyEvents(mac: Mac, k: Keys, tenant: string, base: Checkpoint, end: Checkpoint, rows: seq<AuditLog>)
    returns (ok: bool)
    ensures ok <==> VerifiedSlice(mac, k, tenant, base, end, rows)
  {
    if base.tenant != tenant || end.tenant != tenant || base.sequence > end.sequence {
      return false;
    }
    if !VerifyCheckpoint(mac, k, base) || !VerifyCheckpoint(mac, k, end) {
      return false;
    }
    var seqNo, hash := base.sequence, base.hash;
    for i := 0 to |rows|
      invariant seqNo == base.sequence + i
      invariant hash == HashAt(base.hash, rows, i)
      invariant forall j | 0 <= j < i :: VerifiedRow(mac, k, tenant, base, rows, j)
    {
      seqNo := seqNo + 1;
      if rows[i].tenantID != tenant || rows[i].sequence != Some(seqNo) || rows[i].prevHash != hash || !Verify(mac, k, rows[i]) {
        assert !VerifiedRow(mac, k, tenant, base, rows, i);
        return false;
      }
      hash := rows[i].recordHash;
    }
    return seqNo == end.sequence && hash == end.hash;
  }

  // ----- Uniqueness -----

  /** The row's hash authenticates the row under some key. */
  ghost predicate Sealed(mac: Mac, e: AuditLog) {
    exists k :: e.recordHash == mac(k, Canonical(e))
  }

  ghost predicate SealedRow(mac: Mac, tenant: string, first: nat, start: Hash, rows: seq<AuditLog>, i: nat)
    requires i < |rows|
  {
    LinkedRow(tenant, first, start, rows, i) && Sealed(mac, rows[i])
  }

  ghost predicate Chain(mac: Mac, tenant: string, first: nat, start: Hash, rows: seq<AuditLog>) {
    forall i | 0 <= i < |rows| :: SealedRow(mac, tenant, first, start, rows, i)
  }

  lemma SliceIsChain(mac: Mac, k: Keys, tenant: string, base: Checkpoint, end: Checkpoint, rows: seq<AuditLog>)
    requires VerifiedSlice(mac, k, tenant, base, end, rows)
    ensures Chain(mac, tenant, base.sequence, base.hash, rows)
  {
    forall i | 0 <= i < |rows| ensures SealedRow(mac, tenant, base.sequence, base.hash, rows, i) {
      assert VerifiedRow(mac, k, tenant, base, rows, i);
      assert rows[i].recordHash == mac(k.signing[rows[i].keyID], Canonical(rows[i]));
    }
  }

  lemma SealPinsRow(mac: Mac, a: AuditLog, b: AuditLog)
    requires CollisionFree(mac)
    requires Sealed(mac, a) && Sealed(mac, b) && a.recordHash == b.recordHash
    ensures SignedEqual(a, b)
  {
    var k :| a.recordHash == mac(k, Canonical(a));
    var k' :| b.recordHash == mac(k', Canonical(b));
  }

  /**
   * Two chains that carry the same hash at the same sequence number agree on
   * every signed field of every row they share below it, down to the position
   * where the shorter one starts. The keys that sealed the two need not agree.
   */
  lemma {:induction false} ChainUnique(
    mac: Mac, tenant: string, first: nat, start: Hash, rows: seq<AuditLog>, n: nat,
    tenant': string, first': nat, start': Hash, rows': seq<AuditLog>)
    requires CollisionFree(mac)
    requires Chain(mac, tenant, first, start, rows) && Chain(mac, tenant', first', start', rows')
    requires n <= |rows| && first' <= first && first + n <= first' + |rows'|
    requires HashAt(start, rows, n) == HashAt(start', rows', first - first' + n)
    ensures forall i | 0 <= i < n :: SignedEqual(rows[i], rows'[first - first' + i])
    ensures start == HashAt(start', rows', first - first')
    decreases n
  {
    if n > 0 {
      var m := first - first' + n - 1;
      assert SealedRow(mac, tenant, first, start, rows, n - 1) && SealedRow(mac, tenant', first', start', rows', m);
      SealPinsRow(mac, rows[n - 1], rows'[m]);
      ChainUnique(mac, tenant, first, start, rows, n - 1, tenant', first', start', rows');
    }
  }

  /**
   * Verification against genuine references accepts only what was admitted: if
   * `base` and `end` name positions of the admitted chain `history`, then any
   * rows at all that pass the check are, on every signed field, the admitted
   * events between those positions.
   */
  lemma VerifiedIsAdmitted(
    mac: Mac, k: Keys, tenant: string, base: Checkpoint, end: Checkpoint,
    rows: seq<AuditLog>, owner: string, history: seq<AuditLog>)
    requires CollisionFree(mac)
    requires VerifiedSlice(mac, k, tenant, base, end, rows)
    requires Chain(mac, owner, 0, GENESIS, history)
    requires end.sequence <= |history| && end.hash == HashAt(GENESIS, history, end.sequence)
    ensures base.sequence <= end.sequence
    ensures base.hash == HashAt(GENESIS, history, base.sequence)
    ensures |rows| == end.sequence - base.sequence
    ensures forall i | 0 <= i < |rows| :: SignedEqual(rows[i], history[base.sequence + i])
  {
    SliceIsChain(mac, k, tenant, base, end, rows);
    ChainUnique(mac, tenant, base.sequence, base.hash, rows, |rows|, owner, 0, GENESIS, history);
  }

  /** Any two row sequences accepted for the same base position and the same end reference are interchangeable. */
  lemma VerifiedSlicesAgree(
    mac: Mac, k: Keys, k': Keys, tenant: string, tenant': string,
    base: Checkpoint, base': Checkpoint, end: Checkpoint, end': Checkpoint, rows: seq<AuditLog>, rows': seq<AuditLog>)
    requires CollisionFree(mac)
    requires VerifiedSlice(mac, k, tenant, base, end, rows) && VerifiedSlice(mac, k', tenant', base', end', rows')
    requires base.sequence == base'.sequence && end.sequence == end'.sequence && end.hash == end'.hash
    ensures |rows| == |rows'| && base.hash == base'.hash
    ensures forall i | 0 <= i < |rows| :: SignedEqual(rows[i], rows'[i])
  {
    SliceIsChain(mac, k, tenant, base, end, rows);
    SliceIsChain(mac, k', tenant', base', end', rows');
    ChainUnique(mac, tenant, base.sequence, base.hash, rows, |rows|, tenant', base'.sequence, base'.hash, rows');
  }
}
