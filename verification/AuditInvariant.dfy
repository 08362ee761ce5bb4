/** Every reachable state of the audit pipeline holds exactly the admitted chain. */
module AuditInvariant {
  import opened Common
  import opened AuditEvent
  import opened AuditChain
  import opened AuditPipeline

  // ----- Runs -----

  /** Fixed for a deployment: the MAC, the meaning of every key id ever used for signing, and the backlog limit. */
  datatype Env = Env(mac: Mac, material: map<string, Key>, capacity: nat)

  /** A ring may hold fewer keys than were ever used, but never rebinds an id. */
  ghost predicate Trusted(env: Env, k: Keys) {
    && ValidRing(k)
    && forall id :: id in k.signing ==> id in env.material && env.material[id] == k.signing[id]
  }

  /**
   * The tables together with two history variables that no operation reads:
   * the events admitted so far per tenant, and the lease tokens ever drawn.
   */
  datatype World = World(db: Database, admitted: map<string, seq<AuditLog>>, tokens: set<string>)

  function History(w: World, tenant: string): seq<AuditLog> {
    if tenant in w.admitted then w.admitted[tenant] else []
  }

  datatype Step =
    | DoAdmit(keys: Keys, ctx: Context, input: Option<AuditLog>)
    | DoClaim(id: string, token: string, now: int)
    | DoDeliver(keys: Keys, claim: Claim, now: int)
    | DoFail(claim: Claim, now: int)
    | DoRequeue(tenant: string, id: string, now: int)
    | DoPurge(keys: Keys, tenant: string, policy: RetentionPolicy, archive: Archive, trusted: Checkpoint)
    | DoRestore(keys: Keys, tenant: string, archive: Archive, trusted: Checkpoint)
    | DoAnonymize(tenant: string, user: nat)

  /**
   * Which row a claim picks is left open: the ordered query skips rows that
   * other transactions have locked, so any due row can be the answer. Tokens
   * are fresh UUIDs. Claims and archives are whatever the caller presents.
   */
  ghost predicate Enabled(env: Env, w: World, s: Step) {
    match s
    case DoAdmit(k, _, _) => Trusted(env, k)
    case DoClaim(id, token, now) =>
      id in w.db.outbox && Due(w.db.outbox[id], now) && token != "" && token !in w.tokens
    case DoDeliver(k, _, _) => Trusted(env, k)
    case DoPurge(k, _, _, _, _) => Trusted(env, k)
    case DoRestore(k, _, _, _) => Trusted(env, k)
    case _ => true
  }

  function AfterAdmit(env: Env, w: World, k: Keys, ctx: Context, input: Option<AuditLog>): World
    requires ValidRing(k)
  {
    var out := Admit(env.mac, k, env.capacity, w.db, ctx, input);
    if out.error.Some? then w
    else
      var e := NextEvent(env.mac, k, w.db, Capture(ctx, input).value);
      World(out.db, w.admitted[ctx.tenant := History(w, ctx.tenant) + [e]], w.tokens)
  }

  ghost function Next(env: Env, w: World, s: Step): World
    requires Enabled(env, w, s)
  {
    match s
    case DoAdmit(k, ctx, input) => AfterAdmit(env, w, k, ctx, input)
    case DoClaim(id, token, now) => w.(db := TakeClaim(w.db, id, token, now), tokens := w.tokens + {token})
    case DoDeliver(k, c, now) => w.(db := Deliver(env.mac, k, w.db, c, now).db)
    case DoFail(c, now) => w.(db := FailClaim(w.db, c, now))
    case DoRequeue(t, id, now) => w.(db := RequeueDead(w.db, t, id, now).db)
    case DoPurge(k, t, p, a, trusted) => w.(db := PurgeArchive(env.mac, k, w.db, t, p, a, trusted).db)
    case DoRestore(k, t, a, trusted) => w.(db := RestoreArchive(env.mac, k, w.db, t, a, trusted).db)
    case DoAnonymize(t, u) => w.(db := Anonymize(w.db, t, u))
  }

  /** A run: each state follows from the one before by its step. */
  ghost predicate IsRun(env: Env, run: seq<World>, steps: seq<Step>) {
    && |run| == |steps| + 1
    && forall i | 0 <= i < |steps| :: StepAt(env, run, steps, i)
  }

  ghost predicate StepAt(env: Env, run: seq<World>, steps: seq<Step>, i: nat)
    requires i < |steps| && |run| == |steps| + 1
  {
    Enabled(env, run[i], steps[i]) && run[i + 1] == Next(env, run[i], steps[i])
  }

  ghost predicate Initial(w: World) {
    w.db.heads == map[] && w.db.outbox == map[] && w.db.logs == map[] && w.db.boundaries == map[] && w.admitted == map[] && w.tokens == {}
  }

  // ----- The invariant -----

  /** Event `i` of a tenant's history: linked to its predecessor and sealed under its named key. */
  ghost predicate ChainSlot(env: Env, t: string, h: seq<AuditLog>, i: nat)
    requires i < |h|
  {
    && LinkedRow(t, 0, GENESIS, h, i)
    && h[i].version == 1
    && h[i].keyID in env.material
    && h[i].recordHash == env.mac(env.material[h[i].keyID], Canonical(h[i]))
  }

  ghost predicate ChainOK(env: Env, t: string, h: seq<AuditLog>) {
    forall i | 0 <= i < |h| :: ChainSlot(env, t, h, i)
  }

  /**
   * The tables' view of event `i`: one outbox row, and a log row exactly when
   * the event is delivered and lies above the archive boundary.
   */
  predicate TableSlot(db: Database, t: string, h: seq<AuditLog>, i: nat)
    requires i < |h|
  {
    && h[i].eventID in db.outbox
    && var row := db.outbox[h[i].eventID];
       && row.tenantID == t && row.sequence == i + 1 && row.hash == h[i].recordHash && row.keyID == h[i].keyID
       && (row.phase != Delivered ==> row.payload == Some(h[i]))
       && ((t, i + 1) in db.logs <==> row.phase == Delivered && BoundaryOf(db, t).sequence < i + 1)
       && (i + 1 <= BoundaryOf(db, t).sequence ==> row.phase == Delivered)
       && ((t, i + 1) in db.logs ==> SignedEqual(db.logs[(t, i + 1)], h[i]))
  }

  ghost predicate TablesOK(db: Database, t: string, h: seq<AuditLog>) {
    forall i | 0 <= i < |h| :: TableSlot(db, t, h, i)
  }

  predicate HeadOK(capacity: nat, db: Database, t: string, h: seq<AuditLog>) {
    && HeadOf(db, t) == Head(|h|, HashAt(GENESIS, h, |h|), |Undelivered(db.outbox, t)|)
    && HeadOf(db, t).pending <= capacity
    && (|h| > 0 ==> t in db.heads)
  }

  predicate BoundaryOK(db: Database, t: string, h: seq<AuditLog>) {
    && BoundaryOf(db, t).sequence <= |h|
    && BoundaryOf(db, t).hash == HashAt(GENESIS, h, BoundaryOf(db, t).sequence)
  }

  ghost predicate TenantOK(env: Env, w: World, t: string) {
    && ChainOK(env, t, History(w, t))
    && TablesOK(w.db, t, History(w, t))
    && HeadOK(env.capacity, w.db, t, History(w, t))
    && BoundaryOK(w.db, t, History(w, t))
  }

  predicate LeaseOK(tokens: set<string>, row: OutboxRow) {
    && (row.leaseToken == "" || row.leaseToken in tokens)
    && (row.phase == Leased ==> row.leaseToken != "")
    && (row.phase == Delivered ==> row.leaseToken == "")
    && row.attempts <= MAX_ATTEMPTS + 1
    && (row.phase == Pending || row.phase == Leased ==> row.attempts <= MAX_ATTEMPTS)
  }

  /** No outbox row besides those of admitted events. */
  predicate RowOwned(w: World, id: string)
    requires id in w.db.outbox
  {
    var row := w.db.outbox[id];
    && 1 <= row.sequence <= |History(w, row.tenantID)|
    && History(w, row.tenantID)[row.sequence - 1].eventID == id
    && LeaseOK(w.tokens, row)
  }

  /** No log row besides those of admitted events. */
  predicate LogOwned(w: World, key: (string, nat)) {
    1 <= key.1 <= |History(w, key.0)|
  }

  ghost predicate Inv(env: Env, w: World) {
    && (forall t :: TenantOK(env, w, t))
    && (forall id :: id in w.db.outbox ==> RowOwned(w, id))
    && (forall key :: key in w.db.logs ==> LogOwned(w, key))
    && "" !in w.tokens
  }

  // ----- Preservation -----

  lemma InitInv(env: Env, w: World)
    requires Initial(w)
    ensures Inv(env, w)
  {
    forall t ensures TenantOK(env, w, t) {
      assert Undelivered(w.db.outbox, t) == {};
    }
  }

  /** Rewriting the delivery state of one undelivered row disturbs nothing else. */
  lemma RowUpdateInv(env: Env, w: World, id: string, row: OutboxRow, tokens: set<string>)
    requires Inv(env, w) && id in w.db.outbox
    requires w.tokens <= tokens && "" !in tokens
    requires w.db.outbox[id].phase != Delivered && row.phase != Delivered
    requires row == w.db.outbox[id].(phase := row.phase, attempts := row.attempts, availableAt := row.availableAt,
                                     leaseUntil := row.leaseUntil, leaseToken := row.leaseToken)
    requires LeaseOK(tokens, row)
    ensures Inv(env, w.(db := w.db.(outbox := w.db.outbox[id := row]), tokens := tokens))
  {
    var w' := w.(db := w.db.(outbox := w.db.outbox[id := row]), tokens := tokens);
    forall t ensures TenantOK(env, w', t) {
      assert TenantOK(env, w, t);
      assert History(w', t) == History(w, t);
      RowUpdateCount(w.db, id, row, t);
      forall i | 0 <= i < |History(w, t)| ensures TableSlot(w'.db, t, History(w', t), i) {
        assert TableSlot(w.db, t, History(w, t), i);
        RowUpdateSlot(w.db, id, row, t, History(w, t), i);
      }
    }
    forall k | k in w'.db.outbox ensures RowOwned(w', k) {
      assert RowOwned(w, k);
    }
    forall key | key in w'.db.logs ensures LogOwned(w', key) {
      assert LogOwned(w, key);
    }
  }

  lemma RowUpdateCount(db: Database, id: string, row: OutboxRow, t: string)
    requires id in db.outbox && db.outbox[id].phase != Delivered && row.phase != Delivered && row.tenantID == db.outbox[id].tenantID
    ensures Undelivered(db.outbox[id := row], t) == Undelivered(db.outbox, t)
  {
  }

  lemma RowUpdateSlot(db: Database, id: string, row: OutboxRow, t: string, h: seq<AuditLog>, i: nat)
    requires i < |h| && TableSlot(db, t, h, i) && id in db.outbox && db.outbox[id].phase != Delivered && row.phase != Delivered
    requires row == db.outbox[id].(phase := row.phase, attempts := row.attempts, availableAt := row.availableAt,
                                   leaseUntil := row.leaseUntil, leaseToken := row.leaseToken)
    ensures TableSlot(db.(outbox := db.outbox[id := row]), t, h, i)
  {
  }

  /** Admit extends the caller's chain by one event, or nothing; it leaves every other tenant's alone. */
  lemma AdmitExtends(env: Env, w: World, k: Keys, ctx: Context, input: Option<AuditLog>, t: string)
    requires ValidRing(k)
    ensures var h, h' := History(w, t), History(AfterAdmit(env, w, k, ctx, input), t);
      if t == ctx.tenant && Admit(env.mac, k, env.capacity, w.db, ctx, input).error.None?
      then h' == h + [NextEvent(env.mac, k, w.db, Capture(ctx, input).value)] else h' == h
  {
  }

  lemma AdmitInv(env: Env, w: World, k: Keys, ctx: Context, input: Option<AuditLog>)
    requires Inv(env, w) && Trusted(env, k)
    ensures Inv(env, AfterAdmit(env, w, k, ctx, input))
  {
    var w' := AfterAdmit(env, w, k, ctx, input);
    if w' == w { return; }
    var e := NextEvent(env.mac, k, w.db, Capture(ctx, input).value);
    assert TenantOK(env, w, ctx.tenant);
    assert (ctx.tenant, |History(w, ctx.tenant)| + 1) !in w.db.logs by {
      assert !LogOwned(w, (ctx.tenant, |History(w, ctx.tenant)| + 1));
    }
    forall t ensures TenantOK(env, w', t) {
      assert TenantOK(env, w, t);
      if t == ctx.tenant { AdmitOwner(env, w, w', e, ctx.now); } else { AdmitOther(env, w, w', e, ctx.now, t); }
    }
    forall id | id in w'.db.outbox ensures RowOwned(w', id) {
      if id != e.eventID { assert RowOwned(w, id); }
      AdmitRow(env, w, w', e, ctx.now, id);
    }
    forall key | key in w'.db.logs ensures LogOwned(w', key) {
      assert LogOwned(w, key);
    }
  }

  lemma AdmitRow(env: Env, w: World, w': World, e: AuditLog, now: int, id: string)
    requires e.eventID !in w.db.outbox && e.sequence == Some(|History(w, e.tenantID)| + 1)
    requires w'.db == Enqueue(w.db, e, now) && w'.admitted == w.admitted[e.tenantID := History(w, e.tenantID) + [e]] && w'.tokens == w.tokens
    requires id == e.eventID || (id in w.db.outbox && RowOwned(w, id))
    ensures RowOwned(w', id)
  {
  }

  lemma AdmitOwner(env: Env, w: World, w': World, e: AuditLog, now: int)
    requires TenantOK(env, w, e.tenantID) && e.eventID !in w.db.outbox
    requires HeadOf(w.db, e.tenantID).pending < env.capacity
    requires e.version == 1 && e.sequence == Some(|History(w, e.tenantID)| + 1)
    requires e.prevHash == HeadOf(w.db, e.tenantID).hash
    requires e.keyID in env.material && e.recordHash == env.mac(env.material[e.keyID], Canonical(e))
    requires (e.tenantID, |History(w, e.tenantID)| + 1) !in w.db.logs
    requires w'.db == Enqueue(w.db, e, now) && History(w', e.tenantID) == History(w, e.tenantID) + [e]
    ensures TenantOK(env, w', e.tenantID)
  {
    var t := e.tenantID;
    var h := History(w, t);
    EnqueueCount(w.db, e, now);
    ChainExtends(env, t, h, e);
    TablesExtend(w.db, h, e, now);
  }

  lemma EnqueueCount(db: Database, e: AuditLog, now: int)
    requires e.eventID !in db.outbox && e.sequence.Some?
    ensures |Undelivered(Enqueue(db, e, now).outbox, e.tenantID)| == |Undelivered(db.outbox, e.tenantID)| + 1
  {
    assert Undelivered(Enqueue(db, e, now).outbox, e.tenantID) == Undelivered(db.outbox, e.tenantID) + {e.eventID};
  }

  lemma AdmitOther(env: Env, w: World, w': World, e: AuditLog, now: int, t: string)
    requires TenantOK(env, w, t) && e.eventID !in w.db.outbox && e.sequence.Some? && t != e.tenantID
    requires w'.db == Enqueue(w.db, e, now) && History(w', t) == History(w, t)
    ensures TenantOK(env, w', t)
  {
    var h := History(w, t);
    assert Undelivered(w'.db.outbox, t) == Undelivered(w.db.outbox, t);
    forall i | 0 <= i < |h| ensures TableSlot(w'.db, t, h, i) {
      assert TableSlot(w.db, t, h, i);
    }
  }

  lemma ChainExtends(env: Env, t: string, h: seq<AuditLog>, e: AuditLog)
    requires ChainOK(env, t, h)
    requires e.tenantID == t && e.version == 1 && e.sequence == Some(|h| + 1) && e.prevHash == HashAt(GENESIS, h, |h|)
    requires e.keyID in env.material && e.recordHash == env.mac(env.material[e.keyID], Canonical(e))
    ensures ChainOK(env, t, h + [e])
  {
    forall i | 0 <= i <= |h| ensures ChainSlot(env, t, h + [e], i) {
      if i < |h| { assert ChainSlot(env, t, h, i); }
    }
  }

  lemma TablesExtend(db: Database, h: seq<AuditLog>, e: AuditLog, now: int)
    requires TablesOK(db, e.tenantID, h) && BoundaryOK(db, e.tenantID, h)
    requires e.eventID !in db.outbox && e.sequence == Some(|h| + 1) && (e.tenantID, |h| + 1) !in db.logs
    ensures TablesOK(Enqueue(db, e, now), e.tenantID, h + [e])
  {
    forall i | 0 <= i <= |h| ensures TableSlot(Enqueue(db, e, now), e.tenantID, h + [e], i) {
      if i < |h| { assert TableSlot(db, e.tenantID, h, i); }
    }
  }

  /** The effect of an acknowledging Deliver on the tables. */
  function Acknowledge(db: Database, id: string, e: AuditLog): Database
    requires id in db.outbox && e.sequence.Some?
  {
    var row := db.outbox[id];
    var h := HeadOf(db, row.tenantID);
    db.(heads := if row.tenantID in db.heads && h.pending > 0
                 then db.heads[row.tenantID := h.(pending := h.pending - 1)] else db.heads,
        logs := db.logs[(e.tenantID, e.sequence.value) := e],
        outbox := db.outbox[id := row.(phase := Delivered, payload := None, leaseToken := "", leaseUntil := None)])
  }

  /**
   * From an invariant state, Deliver either changes nothing or acknowledges an
   * undelivered event by inserting exactly the admitted event.
   */
  lemma DeliverEffect(env: Env, w: World, k: Keys, c: Claim, now: int)
    requires Inv(env, w)
    ensures var db' := Deliver(env.mac, k, w.db, c, now).db;
      db' == w.db || (
        && HoldsLease(w.db, c)
        && var row := w.db.outbox[c.eventID];
           1 <= row.sequence <= |History(w, row.tenantID)|
           && History(w, row.tenantID)[row.sequence - 1].sequence.Some?
           && db' == Acknowledge(w.db, c.eventID, History(w, row.tenantID)[row.sequence - 1]))
  {
    if c.eventID in w.db.outbox {
      assert RowOwned(w, c.eventID);
      var row := w.db.outbox[c.eventID];
      var h := History(w, row.tenantID);
      assert TenantOK(env, w, row.tenantID);
      assert TableSlot(w.db, row.tenantID, h, row.sequence - 1);
      assert ChainSlot(env, row.tenantID, h, row.sequence - 1);
    }
  }

  lemma AcknowledgeInv(env: Env, w: World, id: string, e: AuditLog)
    requires Inv(env, w) && id in w.db.outbox && w.db.outbox[id].phase != Delivered
    requires var row := w.db.outbox[id];
      1 <= row.sequence <= |History(w, row.tenantID)| && e == History(w, row.tenantID)[row.sequence - 1] && e.sequence.Some?
    ensures Inv(env, w.(db := Acknowledge(w.db, id, e)))
  {
    var w' := w.(db := Acknowledge(w.db, id, e));
    var owner := w.db.outbox[id].tenantID;
    assert TenantOK(env, w, owner) && RowOwned(w, id);
    assert ChainSlot(env, owner, History(w, owner), w.db.outbox[id].sequence - 1);
    forall t ensures TenantOK(env, w', t) {
      assert TenantOK(env, w, t);
      AcknowledgeTenant(env, w, id, e, t);
    }
    forall k | k in w'.db.outbox ensures RowOwned(w', k) {
      assert RowOwned(w, k);
      AcknowledgeRow(w, id, e, k);
    }
    forall key | key in w'.db.logs ensures LogOwned(w', key) {
      if key in w.db.logs { assert LogOwned(w, key); }
      AcknowledgeLog(w, id, e, key);
    }
  }

  lemma AcknowledgeRow(w: World, id: string, e: AuditLog, k: string)
    requires id in w.db.outbox && e.sequence.Some? && k in w.db.outbox && RowOwned(w, k)
    ensures RowOwned(w.(db := Acknowledge(w.db, id, e)), k)
  {
  }

  lemma AcknowledgeLog(w: World, id: string, e: AuditLog, key: (string, nat))
    requires id in w.db.outbox && e.sequence.Some?
    requires key in w.db.logs ==> LogOwned(w, key)
    requires 1 <= e.sequence.value <= |History(w, e.tenantID)| && key in Acknowledge(w.db, id, e).logs
    ensures LogOwned(w.(db := Acknowledge(w.db, id, e)), key)
  {
  }

  lemma AcknowledgeTenant(env: Env, w: World, id: string, e: AuditLog, t: string)
    requires TenantOK(env, w, t)
    requires id in w.db.outbox && w.db.outbox[id].phase != Delivered
    requires var row := w.db.outbox[id];
      && 1 <= row.sequence <= |History(w, row.tenantID)| && e == History(w, row.tenantID)[row.sequence - 1]
      && e.sequence == Some(row.sequence) && e.tenantID == row.tenantID && e.eventID == id
    ensures TenantOK(env, w.(db := Acknowledge(w.db, id, e)), t)
  {
    var w' := w.(db := Acknowledge(w.db, id, e));
    var row := w.db.outbox[id];
    var h := History(w, t);
    assert History(w', t) == h;
    AcknowledgeCount(w.db, id, e, t);
    if t == row.tenantID {
      assert TableSlot(w.db, t, h, row.sequence - 1);
    }
    forall i | 0 <= i < |h| ensures TableSlot(w'.db, t, h, i) {
      assert TableSlot(w.db, t, h, i);
      AcknowledgeSlot(w.db, id, e, t, h, i);
    }
  }

  lemma AcknowledgeCount(db: Database, id: string, e: AuditLog, t: string)
    requires id in db.outbox && db.outbox[id].phase != Delivered && e.sequence.Some?
    ensures |Undelivered(Acknowledge(db, id, e).outbox, t)| == |Undelivered(db.outbox, t)| - if t == db.outbox[id].tenantID then 1 else 0
  {
    assert Undelivered(Acknowledge(db, id, e).outbox, t) == Undelivered(db.outbox, t) - {id};
  }

  lemma AcknowledgeSlot(db: Database, id: string, e: AuditLog, t: string, h: seq<AuditLog>, i: nat)
    requires i < |h| && TableSlot(db, t, h, i) && id in db.outbox && db.outbox[id].phase != Delivered
    requires var row := db.outbox[id]; e.sequence == Some(row.sequence) && e.tenantID == row.tenantID && e.eventID == id
    requires t == e.tenantID && e.sequence == Some(i + 1) ==> e == h[i]
    ensures TableSlot(Acknowledge(db, id, e), t, h, i)
  {
  }

  // ----- Archive steps -----

  predicate AllLogged(logs: map<(string, nat), AuditLog>, t: string, lo: nat, hi: nat) {
    forall s | lo < s <= hi :: (t, s) in logs
  }

  /** A range query returns as many rows as the range has numbers exactly when none is missing. */
  lemma {:induction false} RowsComplete(logs: map<(string, nat), AuditLog>, t: string, lo: nat, hi: nat)
    requires lo <= hi
    ensures |Rows(logs, t, lo, hi)| <= hi - lo
    ensures |Rows(logs, t, lo, hi)| == hi - lo <==> AllLogged(logs, t, lo, hi)
    ensures AllLogged(logs, t, lo, hi) ==> forall i | 0 <= i < hi - lo :: Rows(logs, t, lo, hi)[i] == logs[(t, lo + i + 1)]
    decreases hi
  {
    if lo < hi {
      RowsComplete(logs, t, lo, hi - 1);
      if AllLogged(logs, t, lo, hi - 1) && (t, hi) in logs {
        assert AllLogged(logs, t, lo, hi);
      } else {
        assert !AllLogged(logs, t, lo, hi);
      }
    }
  }

  /** What passing the in-transaction recheck says about the purged stretch of an invariant state. */
  lemma PurgeableStretch(env: Env, w: World, k: Keys, t: string, base: Checkpoint, end: Checkpoint)
    requires Inv(env, w) && VerifyAgainst(env.mac, k, w.db, t, base, end)
    requires BoundaryOf(w.db, t) == Boundary(base.sequence, base.hash)
    ensures base.sequence <= end.sequence <= |History(w, t)|
    ensures end.hash == HashAt(GENESIS, History(w, t), end.sequence)
    ensures AllLogged(w.db.logs, t, base.sequence, end.sequence)
  {
    var rows := Rows(w.db.logs, t, base.sequence, end.sequence);
    RowsComplete(w.db.logs, t, base.sequence, end.sequence);
    assert TenantOK(env, w, t);
    if base.sequence < end.sequence {
      var last := end.sequence;
      assert rows[last - base.sequence - 1] == w.db.logs[(t, last)];
      LoggedHash(env, w, t, last);
    }
  }

  /** A logged row carries the chain's hash at its sequence. */
  lemma LoggedHash(env: Env, w: World, t: string, s: nat)
    requires Inv(env, w) && (t, s) in w.db.logs
    ensures 1 <= s <= |History(w, t)| && w.db.logs[(t, s)].recordHash == HashAt(GENESIS, History(w, t), s)
  {
    assert LogOwned(w, (t, s)) && TenantOK(env, w, t);
    assert TableSlot(w.db, t, History(w, t), s - 1);
  }

  function Purged(db: Database, t: string, lo: nat, hi: nat, hash: Hash): Database {
    db.(logs := map key | key in db.logs && !InSlice(key, t, lo, hi) :: db.logs[key],
        boundaries := db.boundaries[t := Boundary(hi, hash)])
  }

  lemma PurgedSlot(db: Database, t: string, hi: nat, hash: Hash, u: string, h: seq<AuditLog>, i: nat)
    requires i < |h| && TableSlot(db, u, h, i) && BoundaryOf(db, t).sequence <= hi
    requires u == t && BoundaryOf(db, t).sequence < i + 1 <= hi ==> (t, i + 1) in db.logs
    ensures TableSlot(Purged(db, t, BoundaryOf(db, t).sequence, hi, hash), u, h, i)
  {
  }

  lemma PurgedInv(env: Env, w: World, t: string, hi: nat, hash: Hash)
    requires Inv(env, w)
    requires BoundaryOf(w.db, t).sequence <= hi <= |History(w, t)| && hash == HashAt(GENESIS, History(w, t), hi)
    requires AllLogged(w.db.logs, t, BoundaryOf(w.db, t).sequence, hi)
    ensures Inv(env, w.(db := Purged(w.db, t, BoundaryOf(w.db, t).sequence, hi, hash)))
  {
    var w' := w.(db := Purged(w.db, t, BoundaryOf(w.db, t).sequence, hi, hash));
    forall u ensures TenantOK(env, w', u) {
      assert TenantOK(env, w, u);
      var h := History(w, u);
      assert History(w', u) == h;
      forall i | 0 <= i < |h| ensures TableSlot(w'.db, u, h, i) {
        assert TableSlot(w.db, u, h, i);
        assert u == t && BoundaryOf(w.db, t).sequence < i + 1 <= hi ==> (t, i + 1) in w.db.logs;
        PurgedSlot(w.db, t, hi, hash, u, h, i);
      }
    }
    forall k | k in w'.db.outbox ensures RowOwned(w', k) {
      assert RowOwned(w, k);
    }
    forall key | key in w'.db.logs ensures LogOwned(w', key) {
      assert LogOwned(w, key);
    }
  }

  lemma PurgeInv(env: Env, w: World, k: Keys, t: string, p: RetentionPolicy, a: Archive, trusted: Checkpoint)
    requires Inv(env, w)
    ensures Inv(env, w.(db := PurgeArchive(env.mac, k, w.db, t, p, a, trusted).db))
  {
    var out := PurgeArchive(env.mac, k, w.db, t, p, a, trusted);
    if out.error.None? {
      PurgeableStretch(env, w, k, t, a.base, a.end);
      PurgedInv(env, w, t, a.end.sequence, a.end.hash);
      assert out.db == Purged(w.db, t, a.base.sequence, a.end.sequence, a.end.hash);
    }
  }

  /** What inserting `events` after `first` makes of row `key`. */
  predicate InsertedAt(
    l: map<(string, nat), AuditLog>, logs: map<(string, nat), AuditLog>, t: string, first: nat, events: seq<AuditLog>, key: (string, nat))
  {
    && (key in l <==> key in logs || InSlice(key, t, first, first + |events|))
    && (key in logs ==> l[key] == logs[key])
    && (InSlice(key, t, first, first + |events|) ==> Some(l[key]) == NormalizeAncillary(events[key.1 - first - 1]))
  }

  /** A successful insert adds one normalized row per archived event and leaves the others alone. */
  lemma {:induction false} InsertAllEffect(logs: map<(string, nat), AuditLog>, t: string, first: nat, events: seq<AuditLog>, key: (string, nat))
    requires Positioned(events, t, first) && InsertAll(logs, events).Ok?
    ensures InsertedAt(InsertAll(logs, events).value, logs, t, first, events, key)
    decreases |events|
  {
    if events != [] {
      InsertAllEffect(logs, t, first, events[..|events| - 1], key);
    }
  }

  function Restored(db: Database, logs: map<(string, nat), AuditLog>, t: string, lo: nat, hash: Hash): Database {
    db.(logs := logs, boundaries := db.boundaries[t := Boundary(lo, hash)])
  }

  /** `l` is `logs` plus, for every sequence in (lo, hi], a row that agrees with history on signed fields. */
  ghost predicate Replays(l: map<(string, nat), AuditLog>, logs: map<(string, nat), AuditLog>, t: string, lo: nat, hi: nat, h: seq<AuditLog>) {
    lo <= hi <= |h| && forall key :: ReplayedAt(l, logs, t, lo, hi, h, key)
  }

  predicate ReplayedAt(
    l: map<(string, nat), AuditLog>, logs: map<(string, nat), AuditLog>, t: string, lo: nat, hi: nat, h: seq<AuditLog>, key: (string, nat))
    requires hi <= |h|
  {
    && (key in l <==> key in logs || InSlice(key, t, lo, hi))
    && (key in logs ==> l[key] == logs[key])
    && (InSlice(key, t, lo, hi) ==> SignedEqual(l[key], h[key.1 - 1]))
  }

  lemma RestoredSlot(
    db: Database, logs: map<(string, nat), AuditLog>, t: string, lo: nat, hash: Hash, ht: seq<AuditLog>, u: string, h: seq<AuditLog>, i: nat)
    requires i < |h| && TableSlot(db, u, h, i) && (u == t ==> h == ht)
    requires lo <= BoundaryOf(db, t).sequence <= |ht|
    requires ReplayedAt(logs, db.logs, t, lo, BoundaryOf(db, t).sequence, ht, (u, i + 1))
    ensures TableSlot(Restored(db, logs, t, lo, hash), u, h, i)
  {
  }

  lemma RestoredInv(env: Env, w: World, t: string, lo: nat, hash: Hash, logs: map<(string, nat), AuditLog>)
    requires Inv(env, w)
    requires Replays(logs, w.db.logs, t, lo, BoundaryOf(w.db, t).sequence, History(w, t))
    requires hash == HashAt(GENESIS, History(w, t), lo)
    ensures Inv(env, w.(db := Restored(w.db, logs, t, lo, hash)))
  {
    var w' := w.(db := Restored(w.db, logs, t, lo, hash));
    forall u ensures TenantOK(env, w', u) {
      assert TenantOK(env, w, u);
      var h := History(w, u);
      assert History(w', u) == h;
      forall i | 0 <= i < |h| ensures TableSlot(w'.db, u, h, i) {
        assert TableSlot(w.db, u, h, i) && ReplayedAt(logs, w.db.logs, t, lo, BoundaryOf(w.db, t).sequence, History(w, t), (u, i + 1));
        RestoredSlot(w.db, logs, t, lo, hash, History(w, t), u, h, i);
      }
    }
    forall k | k in w'.db.outbox ensures RowOwned(w', k) {
      assert RowOwned(w, k);
    }
    assert TenantOK(env, w, t);
    forall key | key in w'.db.logs ensures LogOwned(w', key) {
      assert ReplayedAt(logs, w.db.logs, t, lo, BoundaryOf(w.db, t).sequence, History(w, t), key);
      if key in w.db.logs { assert LogOwned(w, key); }
    }
  }

  lemma HistoryIsChain(env: Env, t: string, h: seq<AuditLog>)
    requires ChainOK(env, t, h)
    ensures Chain(env.mac, t, 0, GENESIS, h)
  {
    forall i | 0 <= i < |h| ensures SealedRow(env.mac, t, 0, GENESIS, h, i) {
      assert ChainSlot(env, t, h, i);
    }
  }

  /** An archive accepted at the current boundary is, on signed fields, the stretch of history below it. */
  lemma ArchiveIsHistory(env: Env, w: World, k: Keys, t: string, a: Archive)
    requires CollisionFree(env.mac) && TenantOK(env, w, t)
    requires VerifiedSlice(env.mac, k, t, a.base, a.end, a.events)
    requires BoundaryOf(w.db, t) == Boundary(a.end.sequence, a.end.hash)
    ensures a.end.sequence <= |History(w, t)| && a.base.sequence + |a.events| == a.end.sequence
    ensures a.base.hash == HashAt(GENESIS, History(w, t), a.base.sequence)
    ensures forall i | 0 <= i < |a.events| :: SignedEqual(a.events[i], History(w, t)[a.base.sequence + i])
  {
    HistoryIsChain(env, t, History(w, t));
    VerifiedIsAdmitted(env.mac, k, t, a.base, a.end, a.events, t, History(w, t));
  }

  lemma InsertedHistory(logs: map<(string, nat), AuditLog>, t: string, first: nat, events: seq<AuditLog>, h: seq<AuditLog>)
    requires Positioned(events, t, first) && InsertAll(logs, events).Ok?
    requires first + |events| <= |h| && forall i | 0 <= i < |events| :: SignedEqual(events[i], h[first + i])
    ensures Replays(InsertAll(logs, events).value, logs, t, first, first + |events|, h)
  {
    var l, hi := InsertAll(logs, events).value, first + |events|;
    forall key: (string, nat) ensures ReplayedAt(l, logs, t, first, hi, h, key) {
      InsertAllEffect(logs, t, first, events, key);
      if InSlice(key, t, first, hi) {
        assert SignedEqual(events[key.1 - first - 1], h[first + (key.1 - first - 1)]);
      }
    }
  }

  lemma ArchiveReplays(env: Env, w: World, k: Keys, t: string, a: Archive)
    requires CollisionFree(env.mac) && TenantOK(env, w, t)
    requires VerifiedSlice(env.mac, k, t, a.base, a.end, a.events) && Positioned(a.events, t, a.base.sequence)
    requires BoundaryOf(w.db, t) == Boundary(a.end.sequence, a.end.hash)
    requires InsertAll(w.db.logs, a.events).Ok?
    ensures Replays(InsertAll(w.db.logs, a.events).value, w.db.logs, t, a.base.sequence, a.end.sequence, History(w, t))
    ensures a.base.hash == HashAt(GENESIS, History(w, t), a.base.sequence)
  {
    ArchiveIsHistory(env, w, k, t, a);
    InsertedHistory(w.db.logs, t, a.base.sequence, a.events, History(w, t));
  }

  lemma RestoreInv(env: Env, w: World, k: Keys, t: string, a: Archive, trusted: Checkpoint)
    requires CollisionFree(env.mac) && Inv(env, w)
    ensures Inv(env, w.(db := RestoreArchive(env.mac, k, w.db, t, a, trusted).db))
  {
    var out := RestoreArchive(env.mac, k, w.db, t, a, trusted);
    if out.error.None? {
      VerifiedPositions(env.mac, k, t, a.base, a.end, a.events);
      assert TenantOK(env, w, t);
      ArchiveReplays(env, w, k, t, a);
      RestoredInv(env, w, t, a.base.sequence, a.base.hash, out.db.logs);
    }
  }

  lemma AnonymizeInv(env: Env, w: World, t: string, user: nat)
    requires Inv(env, w)
    ensures Inv(env, w.(db := Anonymize(w.db, t, user)))
  {
    var w' := w.(db := Anonymize(w.db, t, user));
    forall u ensures TenantOK(env, w', u) {
      assert TenantOK(env, w, u);
      var h := History(w, u);
      assert History(w', u) == h;
      forall i | 0 <= i < |h| ensures TableSlot(w'.db, u, h, i) {
        assert TableSlot(w.db, u, h, i);
      }
    }
    forall k | k in w'.db.outbox ensures RowOwned(w', k) {
      assert RowOwned(w, k);
    }
    forall key | key in w'.db.logs ensures LogOwned(w', key) {
      assert LogOwned(w, key);
    }
  }

  // ----- Every run -----

  lemma StepInv(env: Env, w: World, s: Step)
    requires CollisionFree(env.mac) && Inv(env, w) && Enabled(env, w, s)
    ensures Inv(env, Next(env, w, s))
  {
    match s
    case DoAdmit(k, ctx, input) => AdmitInv(env, w, k, ctx, input);
    case DoClaim(id, token, now) =>
      assert RowOwned(w, id);
      RowUpdateInv(env, w, id, Claimed(w.db.outbox[id], token, now), w.tokens + {token});
    case DoDeliver(k, c, now) =>
      DeliverEffect(env, w, k, c, now);
      if Deliver(env.mac, k, w.db, c, now).db != w.db {
        var row := w.db.outbox[c.eventID];
        AcknowledgeInv(env, w, c.eventID, History(w, row.tenantID)[row.sequence - 1]);
      }
    case DoFail(c, now) =>
      if HoldsLease(w.db, c) {
        assert RowOwned(w, c.eventID);
        RowUpdateInv(env, w, c.eventID, FailClaim(w.db, c, now).outbox[c.eventID], w.tokens);
      }
    case DoRequeue(t, id, now) =>
      if RequeueDead(w.db, t, id, now).error.None? {
        assert RowOwned(w, id);
        RowUpdateInv(env, w, id, RequeueDead(w.db, t, id, now).db.outbox[id], w.tokens);
      }
    case DoPurge(k, t, p, a, trusted) => PurgeInv(env, w, k, t, p, a, trusted);
    case DoRestore(k, t, a, trusted) => RestoreInv(env, w, k, t, a, trusted);
    case DoAnonymize(t, user) => AnonymizeInv(env, w, t, user);
  }

  /** Every state of every run from empty tables satisfies the invariant, whatever the interleaving. */
  lemma {:induction false} ReachableInv(env: Env, run: seq<World>, steps: seq<Step>, n: nat)
    requires CollisionFree(env.mac) && IsRun(env, run, steps) && Initial(run[0]) && n < |run|
    ensures Inv(env, run[n])
    decreases n
  {
    if n == 0 {
      InitInv(env, run[0]);
    } else {
      ReachableInv(env, run, steps, n - 1);
      assert StepAt(env, run, steps, n - 1);
      StepInv(env, run[n - 1], steps[n - 1]);
    }
  }

  /** Every outbox row of the tenant is the row of the admitted event with its sequence. */
  predicate OutboxRowExact(db: Database, t: string, h: seq<AuditLog>, id: string) {
    id in db.outbox && db.outbox[id].tenantID == t ==>
      1 <= db.outbox[id].sequence <= |h| && h[db.outbox[id].sequence - 1].eventID == id
  }

  /** Sequence `s` has an outbox row exactly when it lies in 1..head. */
  predicate OutboxSequence(db: Database, t: string, h: seq<AuditLog>, s: nat) {
    1 <= s <= |h| ==>
      var id := h[s - 1].eventID;
      id in db.outbox && db.outbox[id].tenantID == t && db.outbox[id].sequence == s
  }

  /** Sequence `s` is logged exactly when it was delivered and lies above the boundary, and then as admitted. */
  predicate LogExact(db: Database, t: string, h: seq<AuditLog>, s: nat) {
    && ((t, s) in db.logs <==>
         && BoundaryOf(db, t).sequence < s <= |h|
         && h[s - 1].eventID in db.outbox && db.outbox[h[s - 1].eventID].phase == Delivered)
    && ((t, s) in db.logs && 1 <= s <= |h| ==> SignedEqual(db.logs[(t, s)], h[s - 1]))
  }

  /**
   * What that means, spelled out for one tenant: the head is the end of the
   * admitted chain; the outbox holds each sequence from 1 to the head once; the
   * log holds exactly the delivered events above the boundary, as admitted; the
   * boundary carries the chain's hash at its position; and the backlog counter
   * counts the undelivered rows and respects the limit.
   */
  lemma PipelineSafety(env: Env, run: seq<World>, steps: seq<Step>, n: nat, t: string)
    requires CollisionFree(env.mac) && IsRun(env, run, steps) && Initial(run[0]) && n < |run|
    ensures var db, h := run[n].db, History(run[n], t);
      && Chain(env.mac, t, 0, GENESIS, h)
      && HeadOf(db, t).sequence == |h| && HeadOf(db, t).hash == HashAt(GENESIS, h, |h|)
      && (forall id :: OutboxRowExact(db, t, h, id))
      && (forall s :: OutboxSequence(db, t, h, s))
      && (forall s :: LogExact(db, t, h, s))
      && BoundaryOf(db, t).sequence <= |h| && BoundaryOf(db, t).hash == HashAt(GENESIS, h, BoundaryOf(db, t).sequence)
      && HeadOf(db, t).pending == |Undelivered(db.outbox, t)| <= env.capacity
  {
    ReachableInv(env, run, steps, n);
    var w := run[n];
    var h := History(w, t);
    assert TenantOK(env, w, t);
    HistoryIsChain(env, t, h);
    forall id ensures OutboxRowExact(w.db, t, h, id) {
      if id in w.db.outbox { assert RowOwned(w, id); }
    }
    forall s: nat ensures OutboxSequence(w.db, t, h, s) && LogExact(w.db, t, h, s) {
      SequenceExact(env, w, t, s);
    }
  }

  lemma SequenceExact(env: Env, w: World, t: string, s: nat)
    requires TenantOK(env, w, t) && ((t, s) in w.db.logs ==> LogOwned(w, (t, s)))
    ensures OutboxSequence(w.db, t, History(w, t), s) && LogExact(w.db, t, History(w, t), s)
  {
    if 1 <= s <= |History(w, t)| { assert TableSlot(w.db, t, History(w, t), s - 1); }
  }

  /** Admission fails only for a bad event, a reused event id, or a full backlog. */
  lemma AdmitExact(env: Env, w: World, k: Keys, ctx: Context, input: Option<AuditLog>)
    requires Inv(env, w) && Trusted(env, k)
    ensures Admit(env.mac, k, env.capacity, w.db, ctx, input).error.None? <==>
      && Capture(ctx, input).Some?
      && Capture(ctx, input).value.eventID !in w.db.outbox
      && |Undelivered(w.db.outbox, ctx.tenant)| < env.capacity
  {
    assert TenantOK(env, w, ctx.tenant);
    forall id | id in w.db.outbox && w.db.outbox[id].tenantID == ctx.tenant
      ensures w.db.outbox[id].sequence <= |History(w, ctx.tenant)|
    {
      assert RowOwned(w, id);
    }
  }
}
