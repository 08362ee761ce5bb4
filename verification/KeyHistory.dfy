/** The start-up check that no verification key still in use was dropped from the ring. */
module KeyHistory {
  import opened Common
  import opened AuditEvent
  import opened AuditPipeline
  import opened AuditInvariant
  import opened AuditArchive

  const PROBE := 9

  function LogKeyIDs(db: Database): set<string> {
    set key | key in db.logs && db.logs[key].version == 1 :: db.logs[key].keyID
  }

  function BacklogKeyIDs(db: Database): set<string> {
    set id | id in db.outbox && db.outbox[id].phase != Delivered :: db.outbox[id].keyID
  }

  /** SELECT DISTINCT key_id ... LIMIT 9: some at most nine of the distinct ids, all of them if there are no more. */
  method ProbeDistinct(ids: set<string>) returns (probe: seq<string>)
    ensures forall i | 0 <= i < |probe| :: probe[i] in ids
    ensures forall i, j | 0 <= i < j < |probe| :: probe[i] != probe[j]
    ensures |probe| <= PROBE
    ensures |probe| == PROBE || forall id | id in ids :: id in probe
  {
    probe := [];
    var rest := ids;
    while rest != {} && |probe| < PROBE
      invariant rest <= ids && |probe| <= PROBE
      invariant forall i | 0 <= i < |probe| :: probe[i] in ids && probe[i] !in rest
      invariant forall i, j | 0 <= i < j < |probe| :: probe[i] != probe[j]
      invariant forall id | id in ids :: id in probe || id in rest
      decreases |rest|
    {
      var id :| id in rest;
      probe := probe + [id];
      rest := rest - {id};
    }
  }

  /** Nine distinct ids cannot all belong to a ring of at most eight. */
  lemma {:induction false} DistinctFit(probe: seq<string>, ring: set<string>)
    requires forall i, j | 0 <= i < j < |probe| :: probe[i] != probe[j]
    requires forall i | 0 <= i < |probe| :: probe[i] in ring
    ensures |probe| <= |ring|
    decreases |probe|
  {
    if probe != [] {
      var last := probe[|probe| - 1];
      DistinctFit(probe[..|probe| - 1], ring - {last});
    }
  }

  /**
   * Although each table is only probed for nine ids, the check passes exactly
   * when the ring holds the key of every logged and every undelivered event.
   */
  method ValidateKeyHistory(k: Keys, db: Database) returns (ok: bool)
    requires ValidRing(k)
    ensures ok <==> LogKeyIDs(db) + BacklogKeyIDs(db) <= k.signing.Keys
  {
    ok := ProbeTable(k, LogKeyIDs(db));
    if ok {
      ok := ProbeTable(k, BacklogKeyIDs(db));
    }
  }

  method ProbeTable(k: Keys, ids: set<string>) returns (ok: bool)
    requires ValidRing(k)
    ensures ok <==> ids <= k.signing.Keys
  {
    var probe := ProbeDistinct(ids);
    for i := 0 to |probe|
      invariant forall j | 0 <= j < i :: probe[j] in k.signing
    {
      if !HasKey(k, probe[i]) {
        return false;
      }
    }
    DistinctFit(probe, k.signing.Keys);
    return true;
  }

  /** With the check passed, local verification reports precisely whether the tenant's backlog is drained. */
  lemma ValidatedChain(env: Env, w: World, k: Keys, t: string)
    requires Inv(env, w) && Trusted(env, k) && LogKeyIDs(w.db) <= k.signing.Keys && LegacyRows(w.db, t) == 0
    ensures VerifyChain(env.mac, k, w.db, t) <==> HeadOf(w.db, t).pending == 0
  {
    VerifyChainExact(env, w, k, t);
    forall key | key in w.db.logs && key.0 == t ensures w.db.logs[key].keyID in k.signing {
      assert LogOwned(w, key) && TenantOK(env, w, t);
      assert TableSlot(w.db, t, History(w, t), key.1 - 1) && ChainSlot(env, t, History(w, t), key.1 - 1);
      assert w.db.logs[key].keyID in LogKeyIDs(w.db);
    }
  }
}
