/**
 * The repository object itself. Every method updates the tables in place and is
 * proved against the transition of the same name in AuditPipeline, so the
 * theorems about runs speak about these methods.
 */
module AuditRepository {
  import opened Common
  import opened AuditEvent
  import opened AuditChain
  import P = AuditPipeline
  import opened AuditInvariant
  import D = AuditDelivery
  import Q = AuditDispatch

  // ----- Dispatch -----

  function Bounded(limit: int): nat {
    if limit < 1 then 1 else if limit > 1000 then 1000 else limit
  }

  /** Exactly `n` events have left the backlog, and none has joined it. */
  predicate Drained(was: map<string, P.OutboxRow>, now: map<string, P.OutboxRow>, n: nat) {
    D.Backlog(now) <= D.Backlog(was) && |D.Backlog(now)| == |D.Backlog(was)| - n
  }

  /** The rows are the same ones, and those not delivered are untouched. */
  predicate OnlyDelivered(was: map<string, P.OutboxRow>, now: map<string, P.OutboxRow>) {
    now.Keys == was.Keys && forall id | id in now :: now[id].phase == P.Delivered || now[id] == was[id]
  }

  /** Some row that was exhausted, and due at `at`, is dead now. */
  predicate Buried(was: map<string, P.OutboxRow>, now: map<string, P.OutboxRow>, skipped: set<string>, at: int) {
    exists id | id in was :: BuriedRow(was, now, skipped, id, at)
  }

  predicate BuriedRow(was: map<string, P.OutboxRow>, now: map<string, P.OutboxRow>, skipped: set<string>, id: string, at: int) {
    Q.Candidate(was, skipped, id, at) && Q.Exhausted(was, id) && id in now && now[id].phase == P.Dead
  }

  lemma BuriedSince(start: map<string, P.OutboxRow>, was: map<string, P.OutboxRow>, now: map<string, P.OutboxRow>, skipped: set<string>, at: int)
    requires OnlyDelivered(start, was) && Buried(was, now, skipped, at)
    ensures Buried(start, now, skipped, at)
  {
    var id :| id in was && BuriedRow(was, now, skipped, id, at);
    assert BuriedRow(start, now, skipped, id, at);
  }

  class Repository {
    const mac: Mac
    const keys: Keys
    const maxPending: nat
    ghost const material: map<string, Key>

    var heads: map<string, P.Head>
    var outbox: map<string, P.OutboxRow>
    var logs: map<(string, nat), AuditLog>
    var boundaries: map<string, P.Boundary>
    var legacy: map<string, nat>
    ghost var admitted: map<string, seq<AuditLog>>
    ghost var tokens: set<string>

    constructor (mac: Mac, keys: Keys, maxPending: nat, legacy: map<string, nat>, ghost material: map<string, Key>)
      requires Trusted(Env(mac, material, maxPending), keys)
      ensures Trusted(Environment(), this.keys) && Initial(State())
      ensures this.keys == keys && this.legacy == legacy && Environment() == Env(mac, material, maxPending)
    {
      this.mac, this.keys, this.maxPending, this.material := mac, keys, maxPending, material;
      this.heads, this.outbox, this.logs, this.boundaries := map[], map[], map[], map[];
      this.legacy := legacy;
      this.admitted, this.tokens := map[], {};
    }

    ghost function Environment(): Env {
      Env(mac, material, maxPending)
    }

    ghost function Tables(): P.Database
      reads this
    {
      P.Database(heads, outbox, logs, boundaries, legacy)
    }

    ghost function State(): World
      reads this
    {
      World(Tables(), admitted, tokens)
    }

    function HeadFor(tenant: string): P.Head
      reads this
    {
      if tenant in heads then heads[tenant] else P.Head(0, GENESIS, 0)
    }

    function BoundaryFor(tenant: string): P.Boundary
      reads this
    {
      if tenant in boundaries then boundaries[tenant] else P.Boundary(0, GENESIS)
    }

    // ----- Outbox -----

    method Admit(ctx: Context, input: Option<AuditLog>) returns (error: Option<Error>)
      requires ValidRing(keys)
      modifies this
      ensures State() == AfterAdmit(Environment(), old(State()), keys, ctx, input)
      ensures error == P.Admit(mac, keys, maxPending, old(Tables()), ctx, input).error
    {
      var captured := Capture(ctx, input);
      if captured.None? || captured.value.eventID in outbox {
        return Some(Unavailable);
      }
      var h := HeadFor(ctx.tenant);
      if h.pending >= maxPending || P.SequenceTaken(outbox, ctx.tenant, h.sequence + 1) {
        return Some(Unavailable);
      }
      var e := captured.value.(sequence := Some(h.sequence + 1), prevHash := h.hash);
      e := Sign(mac, keys, e);
      var row := P.OutboxRow(ctx.tenant, h.sequence + 1, e.recordHash, e.keyID, Some(e), P.Pending, 0, ctx.now, None, "");
      assert e == P.NextEvent(mac, keys, Tables(), captured.value);
      outbox := outbox[e.eventID := row];
      heads := heads[ctx.tenant := P.Head(h.sequence + 1, e.recordHash, h.pending + 1)];
      assert Tables() == P.Enqueue(old(Tables()), e, ctx.now);
      admitted := admitted[ctx.tenant := (if ctx.tenant in admitted then admitted[ctx.tenant] else []) + [e]];
      return None;
    }

    /** `pick` is the answer of the ordered SKIP LOCKED query, `token` a fresh UUID. */
    method Claim(pick: Option<string>, token: string, now: int) returns (claim: Option<P.Claim>)
      requires pick.Some? ==> pick.value in outbox && P.Due(outbox[pick.value], now)
      modifies this
      ensures pick.None? ==> State() == old(State()) && claim.None?
      ensures pick.Some? ==> State() == World(P.TakeClaim(old(Tables()), pick.value, token, now), old(admitted), old(tokens) + {token})
      ensures claim.Some? <==> pick.Some? && old(outbox[pick.value].attempts) < P.MAX_ATTEMPTS
      ensures claim.Some? ==> claim.value == P.Claim(pick.value, token, outbox[pick.value].attempts) && P.HoldsLease(Tables(), claim.value)
    {
      if pick.None? {
        return None;
      }
      var row := outbox[pick.value];
      row := row.(phase := P.Leased, leaseToken := token, leaseUntil := Some(now + P.LEASE), attempts := row.attempts + 1);
      if row.attempts > P.MAX_ATTEMPTS {
        row := row.(phase := P.Dead);
      }
      outbox := outbox[pick.value := row];
      tokens := tokens + {token};
      if row.phase == P.Dead {
        return None;
      }
      return Some(P.Claim(pick.value, token, row.attempts));
    }

    method Deliver(claim: P.Claim, now: int) returns (error: Option<Error>)
      modifies this
      ensures State() == old(State()).(db := P.Deliver(mac, keys, old(Tables()), claim, now).db)
      ensures error == P.Deliver(mac, keys, old(Tables()), claim, now).error
    {
      if claim.eventID !in outbox {
        return Some(NotFound);
      }
      var row := outbox[claim.eventID];
      if row.phase == P.Delivered {
        return None;
      }
      if row.phase != P.Leased || row.leaseToken != claim.leaseToken || row.leaseUntil.None? || row.leaseUntil.value <= now {
        return Some(Unavailable);
      }
      if !P.PayloadMatches(claim.eventID, row) || !Verify(mac, keys, row.payload.value) {
        return Some(Integrity);
      }
      var e := row.payload.value;
      var key := (e.tenantID, e.sequence.value);
      if P.EventLogged(logs, e.eventID) {
        if key !in logs || !SignedEqual(logs[key], e) {
          return Some(Integrity);
        }
      } else {
        if key in logs {
          return Some(Integrity);
        }
        logs := logs[key := e];
      }
      if row.tenantID in heads && heads[row.tenantID].pending > 0 {
        heads := heads[row.tenantID := heads[row.tenantID].(pending := heads[row.tenantID].pending - 1)];
      }
      outbox := outbox[claim.eventID := row.(phase := P.Delivered, payload := None, leaseToken := "", leaseUntil := None)];
      return None;
    }

    method FailClaim(claim: P.Claim, now: int)
      modifies this
      ensures State() == old(State()).(db := P.FailClaim(old(Tables()), claim, now))
    {
      if claim.eventID in outbox && outbox[claim.eventID].phase == P.Leased && outbox[claim.eventID].leaseToken == claim.leaseToken {
        var row := outbox[claim.eventID].(
          availableAt := now + P.Backoff(claim.attempts), leaseUntil := None, leaseToken := "",
          phase := if claim.attempts >= P.MAX_ATTEMPTS then P.Dead else P.Pending);
        outbox := outbox[claim.eventID := row];
      }
    }

    method RequeueDead(tenant: string, id: string, now: int) returns (error: Option<Error>)
      modifies this
      ensures State() == old(State()).(db := P.RequeueDead(old(Tables()), tenant, id, now).db)
      ensures error == P.RequeueDead(old(Tables()), tenant, id, now).error
    {
      if id !in outbox || outbox[id].tenantID != tenant || outbox[id].phase != P.Dead {
        return Some(NotFound);
      }
      outbox := outbox[id := outbox[id].(phase := P.Pending, attempts := 0, availableAt := now)];
      return None;
    }

    /**
     * Claims and delivers until the limit, an error, or an empty claim. Each
     * counted iteration takes exactly one event off the backlog, and nothing
     * else does. Without an error it stops short of the limit only when nothing
     * is due any more, or when it has just buried a row that was exhausted from
     * the start; an exhausted row at the front stops it at once. `clock`, `uuid`
     * and `skipped` give the successive clock readings, tokens, and rows that
     * other transactions have locked.
     */
    method Dispatch(limit: int, clock: nat -> int, uuid: nat -> string, skipped: nat -> set<string>) returns (n: nat, error: Option<Error>)
      requires Trusted(Environment(), keys) && Inv(Environment(), State()) && CollisionFree(mac)
      requires forall i: nat, j: nat :: i < j ==> uuid(i) != uuid(j)
      requires forall i: nat :: uuid(i) != "" && uuid(i) !in tokens
      modifies this
      ensures Inv(Environment(), State()) && admitted == old(admitted)
      ensures Drained(old(outbox), outbox, n)
      ensures n <= Bounded(limit)
      ensures error.None? && n < Bounded(limit) ==>
        Q.NothingDue(outbox, skipped(n), clock(3 * n)) || Buried(old(outbox), outbox, skipped(n), clock(3 * n))
      ensures Q.FrontExhausted(old(outbox), skipped(0), clock(0)) ==>
        n == 0 && error.None? && Buried(old(outbox), outbox, skipped(0), clock(0))
    {
      n := 0;
      for i := 0 to Bounded(limit)
        invariant n == i
        invariant Inv(Environment(), State()) && admitted == old(admitted)
        invariant Drained(old(outbox), outbox, n)
        invariant forall j: nat :: j >= i ==> uuid(j) !in tokens
        invariant OnlyDelivered(old(outbox), outbox)
        invariant i == 0 ==> State() == old(State())
        invariant i > 0 ==> !Q.FrontExhausted(old(outbox), skipped(0), clock(0))
      {
        ghost var before := outbox;
        var acked, err := DispatchOne(clock(3 * i), clock(3 * i + 1), clock(3 * i + 2), uuid(i), skipped(i));
        if err.Some? || !acked {
          if err.None? && Q.FrontExhausted(before, skipped(i), clock(3 * i)) {
            BuriedSince(old(outbox), before, outbox, skipped(i), clock(3 * i));
          }
          return n, err;
        }
        n := n + 1;
      }
      return n, None;
    }

    /**
     * One iteration: an acknowledged event leaves the backlog; anything else
     * leaves the backlog as it was. The empty answer means exactly that nothing
     * was due, or that the first due row was exhausted and is buried now.
     */
    method DispatchOne(claimAt: int, deliverAt: int, failAt: int, token: string, skipped: set<string>) returns (acked: bool, error: Option<Error>)
      requires Trusted(Environment(), keys) && Inv(Environment(), State()) && CollisionFree(mac)
      requires token != "" && token !in tokens
      modifies this
      ensures Inv(Environment(), State()) && admitted == old(admitted) && tokens <= old(tokens) + {token}
      ensures error.Some? ==> !acked
      ensures Drained(old(outbox), outbox, if acked then 1 else 0)
      ensures !acked && error.None? <==> Q.NothingDue(old(outbox), skipped, claimAt) || Q.FrontExhausted(old(outbox), skipped, claimAt)
      ensures Q.NothingDue(old(outbox), skipped, claimAt) ==> State() == old(State())
      ensures Q.FrontExhausted(old(outbox), skipped, claimAt) ==> Buried(old(outbox), outbox, skipped, claimAt)
      ensures acked ==> OnlyDelivered(old(outbox), outbox)
    {
      if Q.NothingDue(outbox, skipped, claimAt) {
        return false, None;
      }
      Q.FirstExists(outbox, skipped, claimAt);
      var id :| id in outbox && Q.IsFirst(outbox, skipped, id, claimAt);
      forall o | o in outbox && Q.IsFirst(outbox, skipped, o, claimAt) ensures o == id {
        Q.FirstUnique(outbox, skipped, o, id, claimAt);
      }
      acked, error := HandOver(id, claimAt, deliverAt, failAt, token);
      if Q.Exhausted(old(outbox), id) { assert BuriedRow(old(outbox), outbox, skipped, id, claimAt); }
    }

    /** Claim, Deliver and, if that fails, FailClaim of one due row. */
    method HandOver(id: string, claimAt: int, deliverAt: int, failAt: int, token: string) returns (acked: bool, error: Option<Error>)
      requires Trusted(Environment(), keys) && Inv(Environment(), State()) && CollisionFree(mac)
      requires token != "" && token !in tokens && id in outbox && P.Due(outbox[id], claimAt)
      modifies this
      ensures Inv(Environment(), State()) && admitted == old(admitted) && tokens <= old(tokens) + {token}
      ensures error.Some? ==> !acked
      ensures D.Backlog(outbox) == D.Backlog(old(outbox)) - (if acked then {id} else {}) && id in D.Backlog(old(outbox))
      ensures !acked && error.None? <==> Q.Exhausted(old(outbox), id)
      ensures Q.Exhausted(old(outbox), id) ==> Tables() == P.TakeClaim(old(Tables()), id, token, claimAt)
      ensures acked ==> OnlyDelivered(old(outbox), outbox)
    {
      D.ClaimStep(Environment(), State(), id, token, claimAt);
      var c := Claim(Some(id), token, claimAt);
      if c.None? {
        return false, None;
      }
      acked, error := Settle(c.value, deliverAt, failAt);
    }

    /** Deliver of a held claim and, if that fails, FailClaim. */
    method Settle(c: P.Claim, deliverAt: int, failAt: int) returns (acked: bool, error: Option<Error>)
      requires Trusted(Environment(), keys) && Inv(Environment(), State()) && CollisionFree(mac) && P.HoldsLease(Tables(), c)
      modifies this
      ensures Inv(Environment(), State()) && admitted == old(admitted) && tokens == old(tokens)
      ensures acked <==> error.None?
      ensures D.Backlog(outbox) == D.Backlog(old(outbox)) - (if acked then {c.eventID} else {})
      ensures acked ==> c.eventID in outbox && outbox[c.eventID].phase == P.Delivered && outbox == old(outbox)[c.eventID := outbox[c.eventID]]
    {
      D.DeliverStep(Environment(), State(), keys, c, deliverAt);
      error := Deliver(c, deliverAt);
      if error.None? {
        return true, None;
      }
      D.FailStep(Environment(), State(), c, failAt);
      FailClaim(c, failAt);
      return false, error;
    }

    // ----- Verification -----

    method VerifyAgainst(tenant: string, base: Checkpoint, end: Checkpoint) returns (ok: bool)
      ensures ok <==> P.VerifyAgainst(mac, keys, Tables(), tenant, base, end)
    {
      var rows := P.Rows(logs, tenant, base.sequence, end.sequence);
      ok := VerifyEvents(mac, keys, tenant, base, end, rows);
    }

    method VerifyChain(caller: string, requested: string) returns (ok: bool, error: Option<Error>)
      requires ValidRing(keys)
      ensures ok <==> (requested == "" || requested == caller) && P.VerifyChain(mac, keys, Tables(), caller)
      ensures ok <==> error.None?
      ensures error == Some(NotFound) <==> requested != "" && requested != caller
      ensures error == Some(Legacy) <==> (requested == "" || requested == caller) && P.LegacyRows(Tables(), caller) > 0
      ensures error.Some? ==> error.value in {NotFound, Legacy, Integrity}
    {
      if requested != "" && requested != caller {
        return false, Some(NotFound);
      }
      if caller in legacy && legacy[caller] > 0 {
        return false, Some(Legacy);
      }
      var b, h := BoundaryFor(caller), HeadFor(caller);
      var base := MakeCheckpoint(mac, keys, caller, b.sequence, b.hash);
      var end := MakeCheckpoint(mac, keys, caller, h.sequence, h.hash);
      ok := VerifyAgainst(caller, base, end);
      return ok, if ok then None else Some(Integrity);
    }

    // ----- Archive -----

    /** `top` bounds the tenant's sequence numbers, standing for the end of the table. */
    method Archive(tenant: string, p: P.RetentionPolicy, base: Checkpoint, top: nat) returns (a: Result<P.Archive>)
      requires ValidRing(keys)
      ensures a == P.MakeArchive(mac, keys, Tables(), tenant, p, base, top)
    {
      if !P.Permitted(p) || p.maxRows > P.MAX_ARCHIVE {
        return Err(Policy);
      }
      if base.tenant != tenant || !VerifyCheckpoint(mac, keys, base) {
        return Err(Integrity);
      }
      var fetched := P.Take(P.Rows(logs, tenant, base.sequence, top), p.maxRows);
      var events := Export(fetched, p.before.value);
      if events.None? {
        return Err(Integrity);
      }
      var end := base;
      if |events.value| > 0 {
        var last := events.value[|events.value| - 1];
        end := MakeCheckpoint(mac, keys, tenant, if last.sequence.Some? then last.sequence.value else 0, last.recordHash);
      }
      var ok := VerifyEvents(mac, keys, tenant, base, end, events.value);
      return if ok then Ok(P.Archive(base, end, events.value)) else Err(Integrity);
    }

    method PurgeArchive(tenant: string, p: P.RetentionPolicy, a: P.Archive, trusted: Checkpoint) returns (error: Option<Error>)
      modifies this
      ensures State() == old(State()).(db := P.PurgeArchive(mac, keys, old(Tables()), tenant, p, a, trusted).db)
      ensures error == P.PurgeArchive(mac, keys, old(Tables()), tenant, p, a, trusted).error
    {
      if !P.Permitted(p) || |a.events| > p.maxRows || trusted != a.end {
        return Some(Policy);
      }
      var ok := VerifyEvents(mac, keys, tenant, a.base, a.end, a.events);
      if !ok {
        return Some(Integrity);
      }
      for i := 0 to |a.events|
        invariant forall j | 0 <= j < i :: a.events[j].createdAt < p.before.value
        invariant State() == old(State())
      {
        if a.events[i].createdAt >= p.before.value {
          return Some(Policy);
        }
      }
      if tenant !in heads {
        return Some(NotFound);
      }
      if BoundaryFor(tenant) != P.Boundary(a.base.sequence, a.base.hash) {
        return Some(Integrity);
      }
      ok := VerifyAgainst(tenant, a.base, a.end);
      if !ok {
        return Some(Integrity);
      }
      logs := map key | key in logs && !P.InSlice(key, tenant, a.base.sequence, a.end.sequence) :: logs[key];
      boundaries := boundaries[tenant := P.Boundary(a.end.sequence, a.end.hash)];
      return None;
    }

    method RestoreArchive(tenant: string, a: P.Archive, trusted: Checkpoint) returns (error: Option<Error>)
      modifies this
      ensures State() == old(State()).(db := P.RestoreArchive(mac, keys, old(Tables()), tenant, a, trusted).db)
      ensures error == P.RestoreArchive(mac, keys, old(Tables()), tenant, a, trusted).error
    {
      if trusted != a.end || |a.events| > P.MAX_ARCHIVE {
        return Some(Integrity);
      }
      var ok := VerifyEvents(mac, keys, tenant, a.base, a.end, a.events);
      if !ok {
        return Some(Integrity);
      }
      if tenant !in heads || tenant !in boundaries {
        return Some(NotFound);
      }
      if boundaries[tenant] != P.Boundary(a.end.sequence, a.end.hash) || heads[tenant].sequence < a.end.sequence {
        return Some(Integrity);
      }
      P.VerifiedPositions(mac, keys, tenant, a.base, a.end, a.events);
      var restored := Reinsert(logs, a.events);
      if restored.Err? {
        return Some(restored.error);
      }
      logs := restored.value;
      boundaries := boundaries[tenant := P.Boundary(a.base.sequence, a.base.hash)];
      return None;
    }
  }

  /** Walks the fetched rows, stopping at the first that is too young and failing on personal data before it. */
  method Export(rows: seq<AuditLog>, before: int) returns (r: Option<seq<AuditLog>>)
    ensures r == P.ExportRows(rows, before)
  {
    var kept: seq<AuditLog> := [];
    for i := 0 to |rows|
      invariant |kept| == i && Exported(rows, before, kept)
    {
      if rows[i].createdAt >= before {
        ExportStops(rows, before, kept);
        return Some(kept);
      }
      var row := P.NormalizeAncillary(rows[i]);
      if row.None? {
        ExportFails(rows, before, kept);
        return None;
      }
      kept := kept + [row.value];
    }
    ExportStops(rows, before, kept);
    return Some(kept);
  }

  /** `kept` is the normalized form of a prefix of `rows`, all of it old enough. */
  predicate Exported(rows: seq<AuditLog>, before: int, kept: seq<AuditLog>) {
    && |kept| <= |rows|
    && forall i | 0 <= i < |kept| :: rows[i].createdAt < before && P.NormalizeAncillary(rows[i]) == Some(kept[i])
  }

  lemma {:induction false} ExportStops(rows: seq<AuditLog>, before: int, kept: seq<AuditLog>)
    requires Exported(rows, before, kept)
    requires |kept| < |rows| ==> rows[|kept|].createdAt >= before
    ensures P.ExportRows(rows, before) == Some(kept)
    decreases |kept|
  {
    if kept != [] {
      ExportStops(rows[1..], before, kept[1..]);
      assert kept == [kept[0]] + kept[1..];
    }
  }

  lemma {:induction false} ExportFails(rows: seq<AuditLog>, before: int, kept: seq<AuditLog>)
    requires Exported(rows, before, kept) && |kept| < |rows|
    requires rows[|kept|].createdAt < before && P.NormalizeAncillary(rows[|kept|]).None?
    ensures P.ExportRows(rows, before).None?
    decreases |kept|
  {
    if kept != [] {
      ExportFails(rows[1..], before, kept[1..]);
    }
  }

  method Reinsert(logs: map<(string, nat), AuditLog>, events: seq<AuditLog>) returns (r: Result<map<(string, nat), AuditLog>>)
    requires forall i | 0 <= i < |events| :: events[i].sequence.Some?
    ensures r == P.InsertAll(logs, events)
  {
    var rows := logs;
    for i := 0 to |events|
      invariant P.InsertAll(logs, events[..i]) == Ok(rows)
    {
      assert events[..i + 1][..i] == events[..i];
      var row := P.NormalizeAncillary(events[i]);
      var key := (events[i].tenantID, events[i].sequence.value);
      if row.None? {
        InsertFails(logs, events, i + 1);
        return Err(Integrity);
      }
      if key in rows || P.EventLogged(rows, events[i].eventID) {
        InsertFails(logs, events, i + 1);
        return Err(Duplicate);
      }
      rows := rows[key := row.value];
    }
    assert events[..|events|] == events;
    return Ok(rows);
  }

  lemma {:induction false} InsertFails(logs: map<(string, nat), AuditLog>, events: seq<AuditLog>, n: nat)
    requires forall i | 0 <= i < |events| :: events[i].sequence.Some?
    requires n <= |events| && P.InsertAll(logs, events[..n]).Err?
    ensures P.InsertAll(logs, events) == P.InsertAll(logs, events[..n])
    decreases |events| - n
  {
    if n == |events| {
      assert events[..n] == events;
    } else {
      assert events[..n + 1][..n] == events[..n];
      InsertFails(logs, events, n + 1);
    }
  }
}
