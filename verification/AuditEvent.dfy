/** The signed audit event, its canonical payload, and the key ring (internal/audit/audit.go). */
module AuditEvent {
  import opened Common

  type Key = seq<int>
  type Hash = string

  /** A row of audit_logs. `createdAt` counts whole milliseconds. */
  datatype AuditLog = AuditLog(
    tenantID: string, userID: Option<nat>, email: string, event: string, ipAddress: string,
    success: bool, detail: string, prevHash: Hash, recordHash: Hash, createdAt: int,
    version: nat, eventID: string, sequence: Option<nat>, keyID: string,
    actorKind: string, actorID: nat, requestID: string, action: string)

  /** The two frozen, domain-separated JSON arrays that are ever authenticated. */
  datatype Payload =
    | EventPayload(
        version: nat, eventID: string, tenantID: string, sequence: nat, prevHash: Hash, keyID: string,
        createdAt: int, actorKind: string, actorID: nat, subject: nat, requestID: string,
        event: string, action: string, success: bool)
    | CheckpointPayload(tenant: string, position: nat, hash: Hash, signer: string)

  /** HMAC-SHA256 is left abstract: any total function of key and payload. */
  type Mac = (Key, Payload) -> Hash

  ghost predicate CollisionFree(mac: Mac) {
    forall k, p, k', p' :: mac(k, p) == mac(k', p') ==> p == p'
  }

  /** Sixty-four zero digits: the hash in force before a tenant's first event. */
  const GENESIS: Hash := Zeros(64)

  function Zeros(n: nat): Hash {
    if n == 0 then "" else Zeros(n - 1) + "0"
  }

  const MAX_KEYS := 8

  /** A missing sequence reads as 0, and an absent subject as user 0. */
  function Canonical(e: AuditLog): Payload {
    EventPayload(
      e.version, e.eventID, e.tenantID,
      if e.sequence.Some? then e.sequence.value else 0,
      e.prevHash, e.keyID, e.createdAt, e.actorKind, e.actorID,
      if e.userID.Some? then e.userID.value else 0,
      e.requestID, e.event, e.action, e.success)
  }

  /** Two rows that agree on every signed field and on the seal itself. */
  predicate SignedEqual(a: AuditLog, b: AuditLog) {
    Canonical(a) == Canonical(b) && a.recordHash == b.recordHash
  }

  // ----- Key ring -----

  datatype Keys = Keys(
    current: string, signing: map<string, Key>,
    checkpointCurrent: string, checkpoints: map<string, Key>)

  predicate ValidRing(k: Keys) {
    && k.current in k.signing
    && k.checkpointCurrent in k.checkpoints
    && |k.signing| <= MAX_KEYS
    && |k.checkpoints| <= MAX_KEYS
    && k.signing.Values !! k.checkpoints.Values
  }

  predicate HasKey(k: Keys, id: string) {
    id in k.signing
  }

  /** Configured ids must be 1 to 64 characters long and their material must decode. */
  predicate WellConfigured(encoded: map<string, Option<Key>>) {
    && |encoded| <= MAX_KEYS
    && forall id :: id in encoded ==> 0 < |id| <= 64 && encoded[id].Some?
  }

  function Decoded(encoded: map<string, Option<Key>>): map<string, Key>
    requires forall id :: id in encoded ==> encoded[id].Some?
  {
    map id | id in encoded :: encoded[id].value
  }

  /**
   * Decodes one key domain; `None` marks material that decodeKey rejects. No
   * decoded key may occur in `reserved`.
   */
  method DecodeDomain(encoded: map<string, Option<Key>>, reserved: map<string, Key>) returns (r: Option<map<string, Key>>)
    requires |encoded| <= MAX_KEYS
    ensures r.Some? <==> WellConfigured(encoded) && Decoded(encoded).Values !! reserved.Values
    ensures r.Some? ==> r.value == Decoded(encoded)
  {
    var out: map<string, Key> := map[];
    var todo := encoded.Keys;
    while todo != {}
      invariant todo <= encoded.Keys
      invariant out.Keys == encoded.Keys - todo
      invariant forall id :: id in out ==> 0 < |id| <= 64 && encoded[id] == Some(out[id]) && out[id] !in reserved.Values
      decreases |todo|
    {
      var id :| id in todo;
      if |id| == 0 || |id| > 64 || encoded[id].None? {
        return None;
      }
      if encoded[id].value in reserved.Values {
        assert WellConfigured(encoded) ==> Decoded(encoded)[id] in Decoded(encoded).Values;
        return None;
      }
      out := out[id := encoded[id].value];
      todo := todo - {id};
    }
    assert out == Decoded(encoded);
    return Some(out);
  }

  /** When NewKeyRing succeeds: both domains well configured, disjoint, and their current keys present. */
  predicate RingAccepted(
    current: string, encoded: map<string, Option<Key>>,
    checkpointID: string, checkpoints: map<string, Option<Key>>)
  {
    && WellConfigured(encoded)
    && current in encoded
    && WellConfigured(checkpoints)
    && checkpointID in checkpoints
    && Decoded(checkpoints).Values !! Decoded(encoded).Values
  }

  method NewKeyRing(
    current: string, encoded: map<string, Option<Key>>,
    checkpointID: string, checkpoints: map<string, Option<Key>>) returns (r: Option<Keys>)
    ensures r.Some? <==> RingAccepted(current, encoded, checkpointID, checkpoints)
    ensures r.Some? ==> r.value == Keys(current, Decoded(encoded), checkpointID, Decoded(checkpoints))
    ensures r.Some? ==> ValidRing(r.value)
  {
    if |current| == 0 || |current| > 64 || |encoded| > MAX_KEYS {
      return None;
    }
    var signing := DecodeDomain(encoded, map[]);
    if signing.None? || current !in signing.value || |checkpointID| == 0 || |checkpoints| > MAX_KEYS {
      return None;
    }
    var anchors := DecodeDomain(checkpoints, signing.value);
    if anchors.None? || checkpointID !in anchors.value {
      return None;
    }
    assert signing.value.Keys == encoded.Keys;
    assert anchors.value.Keys == checkpoints.Keys;
    return Some(Keys(current, signing.value, checkpointID, anchors.value));
  }

  // ----- Signing and verification -----

  function Sign(mac: Mac, k: Keys, e: AuditLog): (s: AuditLog)
    requires ValidRing(k)
    ensures s.version == 1 && s.sequence.Some? && s.sequence.value > 0 ==> Verify(mac, k, s)
  {
    var stamped := e.(keyID := k.current);
    stamped.(recordHash := mac(k.signing[k.current], Canonical(stamped)))
  }

  predicate Verify(mac: Mac, k: Keys, e: AuditLog) {
    && e.keyID in k.signing
    && e.version == 1
    && e.sequence.Some?
    && e.sequence.value != 0
    && e.recordHash == mac(k.signing[e.keyID], Canonical(e))
  }

  datatype Checkpoint = Checkpoint(tenant: string, sequence: nat, hash: Hash, keyID: string, mac: Hash)

  function CheckpointBytes(c: Checkpoint): Payload {
    CheckpointPayload(c.tenant, c.sequence, c.hash, c.keyID)
  }

  function MakeCheckpoint(mac: Mac, k: Keys, tenant: string, sequence: nat, hash: Hash): (c: Checkpoint)
    requires ValidRing(k)
    ensures VerifyCheckpoint(mac, k, c)
  {
    Checkpoint(tenant, sequence, hash, k.checkpointCurrent,
               mac(k.checkpoints[k.checkpointCurrent],
                   CheckpointPayload(tenant, sequence, hash, k.checkpointCurrent)))
  }

  predicate VerifyCheckpoint(mac: Mac, k: Keys, c: Checkpoint) {
    c.keyID in k.checkpoints && c.mac == mac(k.checkpoints[c.keyID], CheckpointBytes(c))
  }

  // ----- Capture -----

  /** The request context: tenant, authenticated actor (0 = none), clock, and the outcome of both UUID parses. */
  datatype Context = Context(
    tenant: string, actor: nat, system: bool, correlation: string, correlationParses: bool,
    eventIDParses: bool, freshEventID: string, freshRequestID: string, now: int)

  /**
   * A bounded copy of the caller's event. The actor, tenant, clock and version
   * come from the context, and free text is dropped.
   */
  function Capture(ctx: Context, input: Option<AuditLog>): (r: Option<AuditLog>)
    ensures r.Some? ==> input.Some? && r.value.success == input.value.success
    ensures r.Some? ==> r.value.tenantID == ctx.tenant && r.value.version == 1 && r.value.createdAt == ctx.now
    ensures r.Some? ==> r.value.email == r.value.ipAddress == r.value.detail == ""
    ensures r.Some? ==> (r.value.actorKind == "authenticated" <==> ctx.actor > 0)
  {
    if input.None? || |input.value.event| == 0 || |input.value.event| > 40 || |input.value.action| > 40 then None
    else if |ctx.tenant| > 36 || (input.value.tenantID != "" && input.value.tenantID != ctx.tenant) then None
    else if input.value.eventID != "" && !ctx.eventIDParses then None
    else
      var e := input.value;
      Some(e.(
        tenantID := ctx.tenant, version := 1,
        eventID := if e.eventID == "" then ctx.freshEventID else e.eventID,
        createdAt := ctx.now,
        actorKind := if ctx.actor > 0 then "authenticated" else if ctx.system then "system" else "unauthenticated",
        actorID := ctx.actor,
        requestID := if ctx.correlationParses then ctx.correlation else ctx.freshRequestID,
        email := "", ipAddress := "", detail := "", prevHash := "", recordHash := "",
        sequence := None, keyID := ""))
  }
}
