/** Chain verification, purge and restore, from the point of view of the admitted history. */
module AuditArchive {
  import opened Common
  import opened AuditEvent
  import opened AuditChain
  import opened AuditPipeline
  import opened AuditInvariant

  // ----- VerifyChain -----

  /** Nothing above the boundary is missing from the log exactly when the tenant has no backlog. */
  lemma DrainedIffLogged(env: Env, w: World, t: string)
    requires Inv(env, w)
    ensures HeadOf(w.db, t).pending == 0 <==>
            AllLogged(w.db.logs, t, BoundaryOf(w.db, t).sequence, |History(w, t)|)
  {
    assert TenantOK(env, w, t);
    var h, lo := History(w, t), BoundaryOf(w.db, t).sequence;
    if HeadOf(w.db, t).pending == 0 {
      forall s | lo < s <= |h| ensures (t, s) in w.db.logs {
        assert TableSlot(w.db, t, h, s - 1);
        assert h[s - 1].eventID !in Undelivered(w.db.outbox, t);
      }
    }
    if AllLogged(w.db.logs, t, lo, |h|) {
      forall id | id in w.db.outbox && w.db.outbox[id].tenantID == t ensures w.db.outbox[id].phase == Delivered {
        assert RowOwned(w, id);
        assert TableSlot(w.db, t, h, w.db.outbox[id].sequence - 1);
      }
      assert Undelivered(w.db.outbox, t) == {};
    }
  }

  predicate KeysRetained(k: Keys, db: Database, t: string) {
    forall key :: key in db.logs && key.0 == t ==> db.logs[key].keyID in k.signing
  }

  /** Row `j` of a listing that starts after `first` is the tenant's log row at that position. */
  predicate ListedAt(db: Database, t: string, first: nat, rows: seq<AuditLog>, j: nat)
    requires j < |rows|
  {
    (t, first + j + 1) in db.logs && rows[j] == db.logs[(t, first + j + 1)]
  }

  /** A logged row passes its link check, and its seal check exactly when its key is still in the ring. */
  lemma LoggedRowVerifies(env: Env, w: World, k: Keys, t: string, base: Checkpoint, rows: seq<AuditLog>, i: nat)
    requires TenantOK(env, w, t) && Trusted(env, k)
    requires base.sequence + |rows| <= |History(w, t)| && base.hash == HashAt(GENESIS, History(w, t), base.sequence)
    requires forall j | 0 <= j < |rows| :: ListedAt(w.db, t, base.sequence, rows, j)
    requires i < |rows|
    ensures VerifiedRow(env.mac, k, t, base, rows, i) <==> rows[i].keyID in k.signing
  {
    var h, n := History(w, t), base.sequence + i;
    assert TableSlot(w.db, t, h, n) && ChainSlot(env, t, h, n) && ListedAt(w.db, t, base.sequence, rows, i);
    assert SignedEqual(rows[i], h[n]);
    if i > 0 {
      assert TableSlot(w.db, t, h, n - 1) && ListedAt(w.db, t, base.sequence, rows, i - 1);
      assert SignedEqual(rows[i - 1], h[n - 1]);
    }
  }

  /**
   * Local verification succeeds exactly when nothing legacy is present, every
   * admitted event has been delivered, and the ring still holds the keys of the
   * rows in the log.
   */
  lemma VerifyChainExact(env: Env, w: World, k: Keys, t: string)
    requires Inv(env, w) && Trusted(env, k)
    ensures VerifyChain(env.mac, k, w.db, t) <==>
            LegacyRows(w.db, t) == 0 && HeadOf(w.db, t).pending == 0 && KeysRetained(k, w.db, t)
  {
    assert TenantOK(env, w, t);
    var base, end := LocalBase(env.mac, k, w.db, t), LocalEnd(env.mac, k, w.db, t);
    var rows := Rows(w.db.logs, t, base.sequence, end.sequence);
    RowsComplete(w.db.logs, t, base.sequence, end.sequence);
    DrainedIffLogged(env, w, t);
    if AllLogged(w.db.logs, t, base.sequence, end.sequence) {
      assert forall j | 0 <= j < |rows| :: ListedAt(w.db, t, base.sequence, rows, j);
      LoggedSliceVerifies(env, w, k, t, base, end, rows);
    }
  }

  lemma LoggedSliceVerifies(env: Env, w: World, k: Keys, t: string, base: Checkpoint, end: Checkpoint, rows: seq<AuditLog>)
    requires Inv(env, w) && Trusted(env, k)
    requires base.tenant == t && end.tenant == t && VerifyCheckpoint(env.mac, k, base) && VerifyCheckpoint(env.mac, k, end)
    requires BoundaryOf(w.db, t) == Boundary(base.sequence, base.hash)
    requires end.sequence == |History(w, t)| && end.hash == HashAt(GENESIS, History(w, t), end.sequence)
    requires |rows| == end.sequence - base.sequence
    requires forall j | 0 <= j < |rows| :: ListedAt(w.db, t, base.sequence, rows, j)
    ensures VerifiedSlice(env.mac, k, t, base, end, rows) <==> KeysRetained(k, w.db, t)
  {
    ListingEndsAtHead(env, w, t, base, rows);
    forall i | 0 <= i < |rows| ensures VerifiedRow(env.mac, k, t, base, rows, i) <==> rows[i].keyID in k.signing {
      LoggedRowVerifies(env, w, k, t, base, rows, i);
    }
    if VerifiedSlice(env.mac, k, t, base, end, rows) {
      forall key | key in w.db.logs && key.0 == t ensures w.db.logs[key].keyID in k.signing {
        ListingCoversLog(env, w, t, base, rows, key);
        assert VerifiedRow(env.mac, k, t, base, rows, key.1 - base.sequence - 1);
      }
    }
    if KeysRetained(k, w.db, t) {
      forall i | 0 <= i < |rows| ensures VerifiedRow(env.mac, k, t, base, rows, i) {
        assert ListedAt(w.db, t, base.sequence, rows, i);
      }
    }
  }

  lemma ListingEndsAtHead(env: Env, w: World, t: string, base: Checkpoint, rows: seq<AuditLog>)
    requires Inv(env, w) && BoundaryOf(w.db, t) == Boundary(base.sequence, base.hash)
    requires base.sequence + |rows| == |History(w, t)|
    requires forall j | 0 <= j < |rows| :: ListedAt(w.db, t, base.sequence, rows, j)
    ensures HashAt(base.hash, rows, |rows|) == HashAt(GENESIS, History(w, t), |History(w, t)|)
    ensures base.hash == HashAt(GENESIS, History(w, t), base.sequence)
  {
    assert TenantOK(env, w, t);
    if |rows| > 0 {
      assert TableSlot(w.db, t, History(w, t), |History(w, t)| - 1);
      assert ListedAt(w.db, t, base.sequence, rows, |rows| - 1);
    }
  }

  lemma ListingCoversLog(env: Env, w: World, t: string, base: Checkpoint, rows: seq<AuditLog>, key: (string, nat))
    requires Inv(env, w) && BoundaryOf(w.db, t) == Boundary(base.sequence, base.hash)
    requires base.sequence + |rows| == |History(w, t)|
    requires forall j | 0 <= j < |rows| :: ListedAt(w.db, t, base.sequence, rows, j)
    requires key in w.db.logs && key.0 == t
    ensures 0 <= key.1 - base.sequence - 1 < |rows| && rows[key.1 - base.sequence - 1] == w.db.logs[key]
  {
    assert LogOwned(w, key) && TenantOK(env, w, t);
    assert TableSlot(w.db, t, History(w, t), key.1 - 1);
    assert ListedAt(w.db, t, base.sequence, rows, key.1 - base.sequence - 1);
  }

  // ----- Purge -----

  /**
   * A purge deletes only rows older than the cut-off, although it reads dates
   * only from the caller's copy of the events. This needs no invariant: the two
   * verified slices must agree on every signed field.
   */
  lemma PurgeRespectsCutoff(mac: Mac, k: Keys, db: Database, t: string, p: RetentionPolicy, a: Archive, trusted: Checkpoint, key: (string, nat))
    requires CollisionFree(mac)
    requires PurgeArchive(mac, k, db, t, p, a, trusted).error.None?
    requires key in db.logs && key !in PurgeArchive(mac, k, db, t, p, a, trusted).db.logs
    ensures p.before.Some? && db.logs[key].createdAt < p.before.value
  {
    var rows := Rows(db.logs, t, a.base.sequence, a.end.sequence);
    RowsComplete(db.logs, t, a.base.sequence, a.end.sequence);
    VerifiedSlicesAgree(mac, k, k, t, t, a.base, a.base, a.end, a.end, rows, a.events);
    var i := key.1 - a.base.sequence - 1;
    assert rows[i] == db.logs[key];
    assert SignedEqual(rows[i], a.events[i]);
  }

  // ----- Purge, then restore -----

  lemma HistoryIDsDistinct(env: Env, w: World, t: string, i: nat, u: string, j: nat)
    requires Inv(env, w) && i < |History(w, t)| && j < |History(w, u)|
    requires History(w, t)[i].eventID == History(w, u)[j].eventID
    ensures t == u && i == j
  {
    assert TenantOK(env, w, t) && TenantOK(env, w, u);
    assert TableSlot(w.db, t, History(w, t), i) && TableSlot(w.db, u, History(w, u), j);
  }

  lemma LoggedIDsDistinct(env: Env, w: World, t: string, i: nat, key: (string, nat))
    requires Inv(env, w) && i < |History(w, t)| && key in w.db.logs && key != (t, i + 1)
    ensures w.db.logs[key].eventID != History(w, t)[i].eventID
  {
    assert LogOwned(w, key) && TenantOK(env, w, key.0);
    assert TableSlot(w.db, key.0, History(w, key.0), key.1 - 1);
    if w.db.logs[key].eventID == History(w, t)[i].eventID {
      HistoryIDsDistinct(env, w, t, i, key.0, key.1 - 1);
    }
  }

  /** The archived rows agree with the history stretch that starts after `first`, and are free of personal data. */
  predicate Archived(events: seq<AuditLog>, t: string, first: nat, h: seq<AuditLog>) {
    && Positioned(events, t, first)
    && first + |events| <= |h|
    && forall i | 0 <= i < |events| :: SignedEqual(events[i], h[first + i]) && NormalizeAncillary(events[i]).Some?
  }

  lemma NextInsertFree(env: Env, w: World, t: string, first: nat, events: seq<AuditLog>, n: nat)
    requires Inv(env, w) && Archived(events, t, first, History(w, t)) && n < |events|
    requires first + |events| <= BoundaryOf(w.db, t).sequence
    requires InsertAll(w.db.logs, events[..n]).Ok?
    ensures (t, first + n + 1) !in InsertAll(w.db.logs, events[..n]).value
    ensures !EventLogged(InsertAll(w.db.logs, events[..n]).value, events[n].eventID)
  {
    var earlier := InsertAll(w.db.logs, events[..n]).value;
    forall key | key in earlier ensures key != (t, first + n + 1) && earlier[key].eventID != events[n].eventID {
      OtherInsert(env, w, t, first, events, n, key);
    }
  }

  lemma OtherInsert(env: Env, w: World, t: string, first: nat, events: seq<AuditLog>, n: nat, key: (string, nat))
    requires Inv(env, w) && Archived(events, t, first, History(w, t)) && n < |events|
    requires first + |events| <= BoundaryOf(w.db, t).sequence
    requires InsertAll(w.db.logs, events[..n]).Ok? && key in InsertAll(w.db.logs, events[..n]).value
    ensures key != (t, first + n + 1)
    ensures InsertAll(w.db.logs, events[..n]).value[key].eventID != events[n].eventID
  {
    InsertedIDs(w.db.logs, t, first, events, History(w, t), n, key);
    if key in w.db.logs { StoredKeyFree(env, w, t, first, events, n, key); } else { InsertedKeyFree(env, w, t, first, events, n, key); }
  }

  /** A row that was in the log is above the boundary, and belongs to another event. */
  lemma StoredKeyFree(env: Env, w: World, t: string, first: nat, events: seq<AuditLog>, n: nat, key: (string, nat))
    requires Inv(env, w) && Archived(events, t, first, History(w, t)) && n < |events|
    requires first + |events| <= BoundaryOf(w.db, t).sequence && key in w.db.logs
    ensures key != (t, first + n + 1) && w.db.logs[key].eventID != events[n].eventID
  {
    assert SignedEqual(events[n], History(w, t)[first + n]);
    BelowBoundaryFree(env, w, t, first + n);
    LoggedIDsDistinct(env, w, t, first + n, key);
  }

  lemma BelowBoundaryFree(env: Env, w: World, t: string, i: nat)
    requires Inv(env, w) && i < |History(w, t)| && i < BoundaryOf(w.db, t).sequence
    ensures (t, i + 1) !in w.db.logs
  {
    assert TenantOK(env, w, t) && TableSlot(w.db, t, History(w, t), i);
  }

  /** A row inserted before carries an earlier sequence, and with it another event id. */
  lemma InsertedKeyFree(env: Env, w: World, t: string, first: nat, events: seq<AuditLog>, n: nat, key: (string, nat))
    requires Inv(env, w) && Archived(events, t, first, History(w, t)) && n < |events| && InSlice(key, t, first, first + n)
    ensures key != (t, first + n + 1) && History(w, t)[key.1 - 1].eventID != events[n].eventID
  {
    var h := History(w, t);
    assert SignedEqual(events[n], h[first + n]);
    if h[key.1 - 1].eventID == h[first + n].eventID {
      HistoryIDsDistinct(env, w, t, first + n, t, key.1 - 1);
    }
  }

  lemma InsertedIDs(logs: map<(string, nat), AuditLog>, t: string, first: nat, events: seq<AuditLog>, h: seq<AuditLog>, n: nat, key: (string, nat))
    requires Archived(events, t, first, h) && n <= |events|
    requires InsertAll(logs, events[..n]).Ok? && key in InsertAll(logs, events[..n]).value
    ensures var row := InsertAll(logs, events[..n]).value[key];
      if key in logs then row == logs[key] else InSlice(key, t, first, first + n) && row.eventID == h[key.1 - 1].eventID
  {
    InsertAllEffect(logs, t, first, events[..n], key);
    if key !in logs {
      var j := key.1 - first - 1;
      assert SignedEqual(events[j], h[first + j]);
    }
  }

  /** Rows of the stretch just below the boundary can be put back: no index objects. */
  lemma {:induction false} InsertSucceeds(env: Env, w: World, t: string, first: nat, events: seq<AuditLog>, n: nat)
    requires Inv(env, w) && Archived(events, t, first, History(w, t)) && n <= |events|
    requires first + |events| <= BoundaryOf(w.db, t).sequence
    ensures InsertAll(w.db.logs, events[..n]).Ok?
    decreases n
  {
    if n > 0 {
      InsertSucceeds(env, w, t, first, events, n - 1);
      NextInsertFree(env, w, t, first, events, n - 1);
      assert events[..n][..n - 1] == events[..n - 1];
    }
  }

  /**
   * An archive can be restored in every later state whose boundary is where the
   * archive ends: the boundary moves back to the archive's base, and the log
   * gains rows that agree with the admitted events on every signed field.
   */
  lemma RestoreAtBoundary(env: Env, w: World, k: Keys, t: string, a: Archive)
    requires CollisionFree(env.mac) && Inv(env, w)
    requires t in w.db.heads && t in w.db.boundaries
    requires VerifiedSlice(env.mac, k, t, a.base, a.end, a.events) && |a.events| <= MAX_ARCHIVE
    requires forall i | 0 <= i < |a.events| :: NormalizeAncillary(a.events[i]).Some?
    requires BoundaryOf(w.db, t) == Boundary(a.end.sequence, a.end.hash)
    ensures var out := RestoreArchive(env.mac, k, w.db, t, a, a.end);
      && out.error.None?
      && out.db == Restored(w.db, out.db.logs, t, a.base.sequence, a.base.hash)
      && Replays(out.db.logs, w.db.logs, t, a.base.sequence, a.end.sequence, History(w, t))
  {
    assert TenantOK(env, w, t);
    VerifiedPositions(env.mac, k, t, a.base, a.end, a.events);
    assert TenantOK(env, w, t);
    ArchiveIsHistory(env, w, k, t, a);
    InsertSucceeds(env, w, t, a.base.sequence, a.events, |a.events|);
    assert a.events[..|a.events|] == a.events;
    ArchiveReplays(env, w, k, t, a);
  }

  ghost predicate SameSignedRows(l: map<(string, nat), AuditLog>, l': map<(string, nat), AuditLog>) {
    && l.Keys == l'.Keys
    && forall key :: key in l ==> SignedEqual(l[key], l'[key])
  }

  lemma PurgeShape(env: Env, w: World, k: Keys, t: string, p: RetentionPolicy, a: Archive)
    requires Inv(env, w) && PurgeArchive(env.mac, k, w.db, t, p, a, a.end).error.None?
    ensures VerifiedSlice(env.mac, k, t, a.base, a.end, a.events) && t in w.db.heads
    ensures BoundaryOf(w.db, t) == Boundary(a.base.sequence, a.base.hash)
    ensures AllLogged(w.db.logs, t, a.base.sequence, a.end.sequence)
    ensures PurgeArchive(env.mac, k, w.db, t, p, a, a.end).db == Purged(w.db, t, a.base.sequence, a.end.sequence, a.end.hash)
  {
    PurgeableStretch(env, w, k, t, a.base, a.end);
  }

  lemma ReplayUndoesPurge(env: Env, w: World, t: string, lo: nat, hi: nat, logs: map<(string, nat), AuditLog>)
    requires Inv(env, w) && AllLogged(w.db.logs, t, lo, hi)
    requires Replays(logs, Purged(w.db, t, lo, hi, "").logs, t, lo, hi, History(w, t))
    ensures SameSignedRows(logs, w.db.logs)
  {
    forall key ensures key in logs <==> key in w.db.logs {
      assert ReplayedAt(logs, Purged(w.db, t, lo, hi, "").logs, t, lo, hi, History(w, t), key);
      assert InSlice(key, t, lo, hi) ==> key == (t, key.1) && (t, key.1) in w.db.logs;
    }
    forall key | key in logs ensures key in w.db.logs && SignedEqual(logs[key], w.db.logs[key]) {
      assert ReplayedAt(logs, Purged(w.db, t, lo, hi, "").logs, t, lo, hi, History(w, t), key);
      assert InSlice(key, t, lo, hi) ==> (t, key.1) in w.db.logs;
      if InSlice(key, t, lo, hi) {
        assert key == (t, key.1);
        assert TenantOK(env, w, t) && TableSlot(w.db, t, History(w, t), key.1 - 1);
      }
    }
  }

  /**
   * Purging an archive and restoring it gives back the same boundary and, on
   * every signed field, the same log; heads and outbox receipts never move.
   */
  lemma PurgeThenRestore(env: Env, w: World, k: Keys, t: string, p: RetentionPolicy, base: Checkpoint, top: nat)
    requires CollisionFree(env.mac) && Inv(env, w) && Trusted(env, k)
    requires MakeArchive(env.mac, k, w.db, t, p, base, top).Ok?
    requires var a := MakeArchive(env.mac, k, w.db, t, p, base, top).value;
      PurgeArchive(env.mac, k, w.db, t, p, a, a.end).error.None?
    ensures var a := MakeArchive(env.mac, k, w.db, t, p, base, top).value;
      var out := RestoreArchive(env.mac, k, PurgeArchive(env.mac, k, w.db, t, p, a, a.end).db, t, a, a.end);
      && out.error.None?
      && out.db.heads == w.db.heads && out.db.outbox == w.db.outbox
      && (forall u :: BoundaryOf(out.db, u) == BoundaryOf(w.db, u))
      && SameSignedRows(out.db.logs, w.db.logs)
  {
    var a := MakeArchive(env.mac, k, w.db, t, p, base, top).value;
    var w1 := w.(db := PurgeArchive(env.mac, k, w.db, t, p, a, a.end).db);
    PurgeShape(env, w, k, t, p, a);
    PurgeInv(env, w, k, t, p, a, a.end);
    RestoreAtBoundary(env, w1, k, t, a);
    assert History(w1, t) == History(w, t);
    ReplayUndoesPurge(env, w, t, a.base.sequence, a.end.sequence, RestoreArchive(env.mac, k, w1.db, t, a, a.end).db.logs);
  }

  // ----- Checkpoints taken earlier in the run -----

  lemma HistoryStep(env: Env, w: World, s: Step, t: string)
    requires Enabled(env, w, s)
    ensures History(w, t) <= History(Next(env, w, s), t)
  {
  }

  lemma {:induction false} HistoryGrows(env: Env, run: seq<World>, steps: seq<Step>, i: nat, n: nat, t: string)
    requires IsRun(env, run, steps) && i <= n < |run|
    ensures History(run[i], t) <= History(run[n], t)
    decreases n - i
  {
    if i < n {
      HistoryGrows(env, run, steps, i, n - 1, t);
      assert StepAt(env, run, steps, n - 1);
      HistoryStep(env, run[n - 1], steps[n - 1], t);
    }
  }

  /** The hash at a position of the chain does not depend on what follows. */
  lemma HashOfPrefix(start: Hash, h: seq<AuditLog>, h': seq<AuditLog>, n: nat)
    requires h <= h' && n <= |h|
    ensures HashAt(start, h, n) == HashAt(start, h', n)
  {
  }

  /**
   * A checkpoint of the head taken at any earlier moment of the run is genuine
   * for good: whatever rows are accepted up to it later, under whatever ring,
   * are on every signed field the events admitted by then.
   */
  lemma CheckpointStaysGenuine(
    env: Env, run: seq<World>, steps: seq<Step>, i: nat, n: nat, t: string,
    signer: Keys, k: Keys, base: Checkpoint, rows: seq<AuditLog>)
    requires CollisionFree(env.mac) && IsRun(env, run, steps) && Initial(run[0]) && i <= n < |run| && ValidRing(signer)
    requires VerifiedSlice(env.mac, k, t, base, LocalEnd(env.mac, signer, run[i].db, t), rows)
    ensures History(run[i], t) <= History(run[n], t) && base.sequence + |rows| == |History(run[i], t)|
    ensures base.hash == HashAt(GENESIS, History(run[n], t), base.sequence)
    ensures forall j | 0 <= j < |rows| :: SignedEqual(rows[j], History(run[n], t)[base.sequence + j])
  {
    var h, h' := History(run[i], t), History(run[n], t);
    ReachableInv(env, run, steps, i);
    HistoryGrows(env, run, steps, i, n, t);
    assert TenantOK(env, run[i], t);
    HistoryIsChain(env, t, h);
    VerifiedIsAdmitted(env.mac, k, t, base, LocalEnd(env.mac, signer, run[i].db, t), rows, t, h);
    HashOfPrefix(GENESIS, h, h', base.sequence);
    forall j | 0 <= j < |rows| ensures SignedEqual(rows[j], h'[base.sequence + j]) {
      assert h'[base.sequence + j] == h[base.sequence + j];
    }
  }

  /** In particular the stored log, at any later moment, is accepted against it only as admitted. */
  lemma LogVerifiedAgainstOldHead(
    env: Env, run: seq<World>, steps: seq<Step>, i: nat, n: nat, t: string, signer: Keys, k: Keys, base: Checkpoint)
    requires CollisionFree(env.mac) && IsRun(env, run, steps) && Initial(run[0]) && i <= n < |run| && ValidRing(signer)
    requires VerifyAgainst(env.mac, k, run[n].db, t, base, LocalEnd(env.mac, signer, run[i].db, t))
    ensures var rows := Rows(run[n].db.logs, t, base.sequence, |History(run[i], t)|);
      && base.sequence + |rows| == |History(run[i], t)|
      && forall j | 0 <= j < |rows| :: SignedEqual(rows[j], History(run[i], t)[base.sequence + j])
  {
    ReachableInv(env, run, steps, i);
    assert TenantOK(env, run[i], t);
    var rows := Rows(run[n].db.logs, t, base.sequence, |History(run[i], t)|);
    CheckpointStaysGenuine(env, run, steps, i, i, t, signer, k, base, rows);
  }
}
