/**
 * The durable audit pipeline as a transition system over its tables: one step
 * per SQL transaction of internal/repositories/audit_outbox.go and
 * internal/repositories/audit_archive.go.
 */
module AuditPipeline {
  import opened Common
  import opened AuditEvent
  import opened AuditChain

  // ----- Tables -----

  datatype Phase = Pending | Leased | Dead | Delivered

  /** audit_outboxes, keyed by event id. The payload is cleared on delivery. */
  datatype OutboxRow = OutboxRow(
    tenantID: string, sequence: nat, hash: Hash, keyID: string, payload: Option<AuditLog>,
    phase: Phase, attempts: nat, availableAt: int, leaseUntil: Option<int>, leaseToken: string)

  datatype Head = Head(sequence: nat, hash: Hash, pending: nat)

  datatype Boundary = Boundary(sequence: nat, hash: Hash)

  /**
   * audit_logs is split in two: `logs` holds the version 1 rows under their
   * unique (tenant, sequence) index, `legacy` counts each tenant's older rows.
   */
  datatype Database = Database(
    heads: map<string, Head>, outbox: map<string, OutboxRow>, logs: map<(string, nat), AuditLog>,
    boundaries: map<string, Boundary>, legacy: map<string, nat>)

  const LEASE := 30_000
  const MAX_ATTEMPTS := 8

  function HeadOf(db: Database, tenant: string): Head {
    if tenant in db.heads then db.heads[tenant] else Head(0, GENESIS, 0)
  }

  function BoundaryOf(db: Database, tenant: string): Boundary {
    if tenant in db.boundaries then db.boundaries[tenant] else Boundary(0, GENESIS)
  }

  function Undelivered(outbox: map<string, OutboxRow>, tenant: string): set<string> {
    set id | id in outbox && outbox[id].tenantID == tenant && outbox[id].phase != Delivered
  }

  predicate SequenceTaken(outbox: map<string, OutboxRow>, tenant: string, sequence: nat) {
    exists id :: id in outbox && outbox[id].tenantID == tenant && outbox[id].sequence == sequence
  }

  predicate EventLogged(logs: map<(string, nat), AuditLog>, eventID: string) {
    exists k :: k in logs && logs[k].eventID == eventID
  }

  /** The tenant's version 1 rows with sequence in (lo, hi], in sequence order. */
  function Rows(logs: map<(string, nat), AuditLog>, tenant: string, lo: nat, hi: nat): seq<AuditLog>
    decreases hi
  {
    if hi <= lo then []
    else Rows(logs, tenant, lo, hi - 1) + (if (tenant, hi) in logs then [logs[(tenant, hi)]] else [])
  }

  /** The state after a transaction, and its error if it rolled back. */
  datatype Outcome = Outcome(db: Database, error: Option<Error>)

  // ----- Admit -----

  /** The event that Admit would sign at the current head. */
  function NextEvent(mac: Mac, k: Keys, db: Database, e: AuditLog): AuditLog
    requires ValidRing(k)
  {
    var h := HeadOf(db, e.tenantID);
    Sign(mac, k, e.(sequence := Some(h.sequence + 1), prevHash := h.hash))
  }

  function Admit(mac: Mac, k: Keys, capacity: nat, db: Database, ctx: Context, input: Option<AuditLog>): Outcome
    requires ValidRing(k)
  {
    var captured := Capture(ctx, input);
    if captured.None? || captured.value.eventID in db.outbox then Outcome(db, Some(Unavailable))
    else
      var h := HeadOf(db, ctx.tenant);
      if h.pending >= capacity || SequenceTaken(db.outbox, ctx.tenant, h.sequence + 1) then Outcome(db, Some(Unavailable))
      else
        var e := NextEvent(mac, k, db, captured.value);
        Outcome(Enqueue(db, e, ctx.now), None)
  }

  /** The head advances to the new event, and its outbox row is due at once. */
  function Enqueue(db: Database, e: AuditLog, now: int): Database
    requires e.sequence.Some?
  {
    var pending := HeadOf(db, e.tenantID).pending;
    db.(heads := db.heads[e.tenantID := Head(e.sequence.value, e.recordHash, pending + 1)],
        outbox := db.outbox[e.eventID := OutboxRow(e.tenantID, e.sequence.value, e.recordHash, e.keyID, Some(e), Pending, 0, now, None, "")])
  }

  // ----- Claim, FailClaim, RequeueDead -----

  predicate Due(row: OutboxRow, now: int) {
    || (row.phase == Pending && row.availableAt <= now)
    || (row.phase == Leased && row.leaseUntil.Some? && row.leaseUntil.value <= now)
  }

  /** What a worker carries away from Claim. */
  datatype Claim = Claim(eventID: string, leaseToken: string, attempts: nat)

  function Claimed(row: OutboxRow, token: string, now: int): OutboxRow {
    row.(phase := if row.attempts + 1 > MAX_ATTEMPTS then Dead else Leased,
         leaseToken := token, leaseUntil := Some(now + LEASE), attempts := row.attempts + 1)
  }

  function TakeClaim(db: Database, id: string, token: string, now: int): Database
    requires id in db.outbox
  {
    db.(outbox := db.outbox[id := Claimed(db.outbox[id], token, now)])
  }

  predicate HoldsLease(db: Database, c: Claim) {
    && c.eventID in db.outbox
    && db.outbox[c.eventID].phase == Leased
    && db.outbox[c.eventID].leaseToken == c.leaseToken
  }

  function Power2(n: nat): nat {
    if n == 0 then 1 else 2 * Power2(n - 1)
  }

  function Backoff(attempts: nat): int {
    1000 * Power2(if attempts < 8 then attempts else 8)
  }

  function FailClaim(db: Database, c: Claim, now: int): Database {
    if !HoldsLease(db, c) then db
    else
      var row := db.outbox[c.eventID];
      db.(outbox := db.outbox[c.eventID := row.(
        phase := if c.attempts >= MAX_ATTEMPTS then Dead else Pending,
        availableAt := now + Backoff(c.attempts), leaseUntil := None, leaseToken := "")])
  }

  function RequeueDead(db: Database, tenant: string, id: string, now: int): Outcome {
    if id !in db.outbox || db.outbox[id].tenantID != tenant || db.outbox[id].phase != Dead then Outcome(db, Some(NotFound))
    else
      var row := db.outbox[id].(phase := Pending, attempts := 0, availableAt := now);
      Outcome(db.(outbox := db.outbox[id := row]), None)
  }

  // ----- Deliver -----

  predicate PayloadMatches(id: string, row: OutboxRow) {
    && row.payload.Some?
    && var e := row.payload.value;
       && e.eventID == id && e.tenantID == row.tenantID && e.sequence == Some(row.sequence)
       && e.recordHash == row.hash && e.keyID == row.keyID
  }

  /** The log insert of Deliver: an existing row for the event must be the same signed event. */
  function LogDelivery(logs: map<(string, nat), AuditLog>, e: AuditLog): Option<map<(string, nat), AuditLog>>
    requires e.sequence.Some?
  {
    var key := (e.tenantID, e.sequence.value);
    if EventLogged(logs, e.eventID) then
      if key in logs && SignedEqual(logs[key], e) then Some(logs) else None
    else if key in logs then None
    else Some(logs[key := e])
  }

  function Deliver(mac: Mac, k: Keys, db: Database, c: Claim, now: int): Outcome {
    if c.eventID !in db.outbox then Outcome(db, Some(NotFound))
    else
      var row := db.outbox[c.eventID];
      if row.phase == Delivered then Outcome(db, None)
      else if !HoldsLease(db, c) || row.leaseUntil.None? || row.leaseUntil.value <= now then Outcome(db, Some(Unavailable))
      else if !PayloadMatches(c.eventID, row) || !Verify(mac, k, row.payload.value) then Outcome(db, Some(Integrity))
      else
        var logs := LogDelivery(db.logs, row.payload.value);
        if logs.None? then Outcome(db, Some(Integrity))
        else
          var h := HeadOf(db, row.tenantID);
          var heads := if row.tenantID in db.heads && h.pending > 0
                       then db.heads[row.tenantID := h.(pending := h.pending - 1)] else db.heads;
          var done := row.(phase := Delivered, payload := None, leaseToken := "", leaseUntil := None);
          Outcome(db.(heads := heads, logs := logs.value, outbox := db.outbox[c.eventID := done]), None)
  }

  // ----- Verification -----

  /** The references that VerifyChain checks the log against. */
  function LocalBase(mac: Mac, k: Keys, db: Database, tenant: string): Checkpoint
    requires ValidRing(k)
  {
    MakeCheckpoint(mac, k, tenant, BoundaryOf(db, tenant).sequence, BoundaryOf(db, tenant).hash)
  }

  function LocalEnd(mac: Mac, k: Keys, db: Database, tenant: string): Checkpoint
    requires ValidRing(k)
  {
    MakeCheckpoint(mac, k, tenant, HeadOf(db, tenant).sequence, HeadOf(db, tenant).hash)
  }

  predicate VerifyAgainst(mac: Mac, k: Keys, db: Database, tenant: string, base: Checkpoint, end: Checkpoint) {
    VerifiedSlice(mac, k, tenant, base, end, Rows(db.logs, tenant, base.sequence, end.sequence))
  }

  function LegacyRows(db: Database, tenant: string): nat {
    if tenant in db.legacy then db.legacy[tenant] else 0
  }

  predicate VerifyChain(mac: Mac, k: Keys, db: Database, tenant: string)
    requires ValidRing(k)
  {
    && LegacyRows(db, tenant) == 0
    && VerifyAgainst(mac, k, db, tenant, LocalBase(mac, k, db, tenant), LocalEnd(mac, k, db, tenant))
  }

  // ----- Archive, PurgeArchive, RestoreArchive -----

  /** An operator's retention decision; a zero cut-off time is `None`. */
  datatype RetentionPolicy = RetentionPolicy(approval: string, enabled: bool, legalHold: bool, before: Option<int>, maxRows: int)

  datatype Archive = Archive(base: Checkpoint, end: Checkpoint, events: seq<AuditLog>)

  const MAX_ARCHIVE := 1000
  const ERASURE_MARKER := "anonymized@gdpr.local"

  predicate Permitted(p: RetentionPolicy) {
    p.enabled && !p.legalHold && p.approval != "" && p.maxRows >= 1 && p.before.Some?
  }

  function NormalizeAncillary(e: AuditLog): (r: Option<AuditLog>)
    ensures r.Some? ==> SignedEqual(r.value, e) && r.value.email == r.value.ipAddress == r.value.detail == ""
  {
    var n := if e.version == 1 && e.email == ERASURE_MARKER then e.(email := "") else e;
    if n.email != "" || n.ipAddress != "" || n.detail != "" then None else Some(n)
  }

  predicate OlderThan(events: seq<AuditLog>, before: int) {
    forall i | 0 <= i < |events| :: events[i].createdAt < before
  }

  predicate InSlice(key: (string, nat), tenant: string, lo: nat, hi: nat) {
    key.0 == tenant && lo < key.1 <= hi
  }

  function PurgeArchive(mac: Mac, k: Keys, db: Database, tenant: string, p: RetentionPolicy, a: Archive, trusted: Checkpoint): Outcome {
    if !Permitted(p) || |a.events| > p.maxRows || trusted != a.end then Outcome(db, Some(Policy))
    else if !VerifiedSlice(mac, k, tenant, a.base, a.end, a.events) then Outcome(db, Some(Integrity))
    else if !OlderThan(a.events, p.before.value) then Outcome(db, Some(Policy))
    else if tenant !in db.heads then Outcome(db, Some(NotFound))
    else if BoundaryOf(db, tenant) != Boundary(a.base.sequence, a.base.hash) then Outcome(db, Some(Integrity))
    else if !VerifyAgainst(mac, k, db, tenant, a.base, a.end) then Outcome(db, Some(Integrity))
    else
      Outcome(db.(logs := map key | key in db.logs && !InSlice(key, tenant, a.base.sequence, a.end.sequence) :: db.logs[key],
                  boundaries := db.boundaries[tenant := Boundary(a.end.sequence, a.end.hash)]), None)
  }

  /** The rows belong to one tenant and carry the consecutive sequences after `first`. */
  predicate Positioned(events: seq<AuditLog>, tenant: string, first: nat) {
    forall i | 0 <= i < |events| :: events[i].tenantID == tenant && events[i].sequence == Some(first + i + 1)
  }

  lemma VerifiedPositions(mac: Mac, k: Keys, tenant: string, base: Checkpoint, end: Checkpoint, rows: seq<AuditLog>)
    requires VerifiedSlice(mac, k, tenant, base, end, rows)
    ensures Positioned(rows, tenant, base.sequence)
  {
    forall i | 0 <= i < |rows| ensures rows[i].tenantID == tenant && rows[i].sequence == Some(base.sequence + i + 1) {
      assert VerifiedRow(mac, k, tenant, base, rows, i);
    }
  }

  /** Inserts archived rows one by one; the first failure, personal data or a taken index, undoes them all. */
  function InsertAll(logs: map<(string, nat), AuditLog>, events: seq<AuditLog>): Result<map<(string, nat), AuditLog>>
    requires forall i | 0 <= i < |events| :: events[i].sequence.Some?
    decreases |events|
  {
    if events == [] then Ok(logs)
    else
      var last := events[|events| - 1];
      var earlier := InsertAll(logs, events[..|events| - 1]);
      var row := NormalizeAncillary(last);
      if earlier.Err? then earlier
      else if row.None? then Err(Integrity)
      else if (last.tenantID, last.sequence.value) in earlier.value || EventLogged(earlier.value, last.eventID) then Err(Duplicate)
      else Ok(earlier.value[(last.tenantID, last.sequence.value) := row.value])
  }

  function RestoreArchive(mac: Mac, k: Keys, db: Database, tenant: string, a: Archive, trusted: Checkpoint): Outcome {
    if trusted != a.end || |a.events| > MAX_ARCHIVE then Outcome(db, Some(Integrity))
    else if !VerifiedSlice(mac, k, tenant, a.base, a.end, a.events) then Outcome(db, Some(Integrity))
    else if tenant !in db.heads || tenant !in db.boundaries then Outcome(db, Some(NotFound))
    else if db.boundaries[tenant] != Boundary(a.end.sequence, a.end.hash) || db.heads[tenant].sequence < a.end.sequence then
      Outcome(db, Some(Integrity))
    else
      VerifiedPositions(mac, k, tenant, a.base, a.end, a.events);
      var logs := InsertAll(db.logs, a.events);
      if logs.Err? then Outcome(db, Some(logs.error))
      else Outcome(db.(logs := logs.value, boundaries := db.boundaries[tenant := Boundary(a.base.sequence, a.base.hash)]), None)
  }

  /** The oldest rows after `base`, cut at the first one that is not older than the policy allows, then normalized. */
  function ExportRows(rows: seq<AuditLog>, before: int): (r: Option<seq<AuditLog>>)
    ensures r.Some? ==> |r.value| <= |rows| && OlderThan(r.value, before)
    ensures r.Some? ==> forall i | 0 <= i < |r.value| ::
      NormalizeAncillary(rows[i]) == Some(r.value[i]) && NormalizeAncillary(r.value[i]).Some?
    ensures r.Some? && |r.value| < |rows| ==> rows[|r.value|].createdAt >= before
  {
    if rows == [] || rows[0].createdAt >= before then Some([])
    else
      var first := NormalizeAncillary(rows[0]);
      var rest := ExportRows(rows[1..], before);
      if first.None? || rest.None? then None else Some([first.value] + rest.value)
  }

  function Take(rows: seq<AuditLog>, n: nat): seq<AuditLog> {
    if |rows| <= n then rows else rows[..n]
  }

  /** `top` is any bound on the tenant's sequence numbers; it only says where the table ends. */
  function MakeArchive(mac: Mac, k: Keys, db: Database, tenant: string, p: RetentionPolicy, base: Checkpoint, top: nat): (r: Result<Archive>)
    requires ValidRing(k)
    ensures r.Ok? ==> VerifiedSlice(mac, k, tenant, r.value.base, r.value.end, r.value.events)
    ensures r.Ok? ==> r.value.base == base && |r.value.events| <= MAX_ARCHIVE
    ensures r.Ok? ==> forall i | 0 <= i < |r.value.events| :: NormalizeAncillary(r.value.events[i]).Some?
  {
    if !Permitted(p) || p.maxRows > MAX_ARCHIVE then Err(Policy)
    else if base.tenant != tenant || !VerifyCheckpoint(mac, k, base) then Err(Integrity)
    else
      var events := ExportRows(Take(Rows(db.logs, tenant, base.sequence, top), p.maxRows), p.before.value);
      if events.None? then Err(Integrity)
      else
        var end := EndOf(mac, k, tenant, base, events.value);
        if VerifiedSlice(mac, k, tenant, base, end, events.value) then Ok(Archive(base, end, events.value)) else Err(Integrity)
  }

  function EndOf(mac: Mac, k: Keys, tenant: string, base: Checkpoint, events: seq<AuditLog>): Checkpoint
    requires ValidRing(k)
  {
    if events == [] then base
    else
      var last := events[|events| - 1];
      MakeCheckpoint(mac, k, tenant, if last.sequence.Some? then last.sequence.value else 0, last.recordHash)
  }

  // ----- AnonymizeUser -----

  /** Erasure blanks the unsigned text columns of a user's rows. */
  function Anonymize(db: Database, tenant: string, user: nat): Database {
    db.(logs := map key | key in db.logs ::
      if key.0 == tenant && db.logs[key].userID == Some(user)
      then db.logs[key].(email := "", ipAddress := "", detail := "") else db.logs[key])
  }
}
