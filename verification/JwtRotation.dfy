/** Access tokens and the rotation of their signing key (internal/jwt/v1.go, internal/jwt/jwt.go). */
module JwtRotation {
  import opened Common

  type Key = seq<int>

  // Times are nanoseconds.
  const SECOND := 1_000_000_000
  const MAX_ACCESS_TTL := 900 * SECOND
  const MAX_SKEW := 30 * SECOND
  const KEY_DRAIN := MAX_ACCESS_TTL + MAX_SKEW

  const ISSUER := "finnapigo"
  const FINN := "finnapigo-api"
  const JAKE := "jakeai-service"
  const ACCESS := "access"
  const PURPOSE := "finnapigo-purpose:"

  /** A claim that a token may lack is an Option. */
  datatype Claims = Claims(
    userID: nat, subject: string, kind: string, contractVersion: int, issuer: string, tenantID: string,
    jti: string, sid: string, pwdVer: int, authEpoch: int, permissions: Option<seq<string>>, audience: seq<string>,
    issuedAt: Option<int>, notBefore: Option<int>, expiresAt: Option<int>)

  /** `wellFormed` stands for the raw JSON checks: three parts, unique and exactly spelt member names, integer types. */
  datatype Token = Token(kid: string, signedWith: Key, wellFormed: bool, claims: Claims)

  datatype Manager = Manager(currentKid: string, current: Key, keys: map<string, Key>, previousID: string, previousRetires: int)

  // ----- Configuration -----

  datatype Secret = Unset | Weak | Strong(key: Key)

  datatype KeyConfig = KeyConfig(
    algorithm: string, currentID: string, currentSecret: Secret,
    previousID: string, previousSecret: Secret, previousLastIssued: Option<int>)

  predicate ValidKeyID(id: string) {
    && 0 < |id| <= 64
    && forall i | 0 <= i < |id| :: 'a' <= id[i] <= 'z' || 'A' <= id[i] <= 'Z' || '0' <= id[i] <= '9' || id[i] == '-' || id[i] == '_'
  }

  /** No trace of a previous key. */
  predicate NoPrevious(c: KeyConfig) {
    c.previousSecret.Unset? && c.previousID == "" && c.previousLastIssued.None?
  }

  /** A complete previous key: another id, other material, and a last issuance that is not in the future. */
  predicate ValidPrevious(c: KeyConfig, now: int) {
    && c.previousSecret.Strong? && c.previousSecret != c.currentSecret
    && ValidKeyID(c.previousID) && c.previousID != c.currentID
    && c.previousLastIssued.Some? && c.previousLastIssued.value <= now
  }

  predicate Holds(m: Manager, id: string, key: Key) {
    id in m.keys && m.keys[id] == key
  }

  function NewConfiguredManager(c: KeyConfig, now: int): (m: Option<Manager>)
    ensures m.Some? <==> c.algorithm == "HS256" && ValidKeyID(c.currentID) && c.currentSecret.Strong? && (NoPrevious(c) || ValidPrevious(c, now))
    ensures m.Some? ==> m.value.currentKid == c.currentID && m.value.current == c.currentSecret.key && Holds(m.value, c.currentID, m.value.current)
    ensures m.Some? ==> m.value.keys.Keys == {c.currentID} + if ValidPrevious(c, now) then {c.previousID} else {}
    ensures m.Some? && ValidPrevious(c, now) ==>
      && Holds(m.value, c.previousID, c.previousSecret.key) && c.previousSecret.key != m.value.current
      && m.value.previousID == c.previousID && m.value.previousRetires == c.previousLastIssued.value + KEY_DRAIN
  {
    if c.algorithm != "HS256" || !ValidKeyID(c.currentID) || !c.currentSecret.Strong? then None
    else
      var base := Manager(c.currentID, c.currentSecret.key, map[c.currentID := c.currentSecret.key], "", 0);
      if c.previousSecret.Unset? then
        if c.previousID != "" || c.previousLastIssued.Some? then None else Some(base)
      else if !c.previousSecret.Strong? then None
      else if !ValidKeyID(c.previousID) || c.previousID == c.currentID || c.previousSecret == c.currentSecret
              || c.previousLastIssued.None? || c.previousLastIssued.value > now then None
      else
        Some(base.(keys := base.keys[c.previousID := c.previousSecret.key], previousID := c.previousID,
                   previousRetires := c.previousLastIssued.value + KEY_DRAIN))
  }

  // ----- Issuing -----

  /** Numeric dates are cut to whole seconds. */
  function Truncated(t: int): int {
    t / SECOND * SECOND
  }

  function Audience(perms: seq<string>): seq<string> {
    if "chat:read" in perms || "chat:write" in perms then [FINN, JAKE] else [FINN]
  }

  /** The audience is chosen by a loop over the permissions. */
  method ChooseAudience(perms: seq<string>) returns (aud: seq<string>)
    ensures aud == Audience(perms)
    ensures JAKE in aud <==> "chat:read" in perms || "chat:write" in perms
  {
    aud := [FINN];
    for i := 0 to |perms|
      invariant aud == [FINN]
      invariant forall j | 0 <= j < i :: perms[j] != "chat:read" && perms[j] != "chat:write"
    {
      if perms[i] == "chat:read" || perms[i] == "chat:write" {
        aud := [FINN, JAKE];
        assert JAKE == aud[1];
        return;
      }
    }
    assert JAKE != FINN by { assert |JAKE| != |FINN|; }
  }

  function IssueAccess(
    m: Manager, userID: nat, ttl: int, pwdVer: int, authEpoch: int, sid: string, tid: string, jti: string,
    perms: seq<string>, now: int): Option<Token>
  {
    if userID == 0 || sid == "" || tid == "" || pwdVer < 0 || authEpoch < 0 || ttl <= 0 || ttl > MAX_ACCESS_TTL then None
    else
      Some(Token(m.currentKid, m.current, true, Claims(
        userID, Digits(userID), ACCESS, 1, ISSUER, tid, jti, sid, pwdVer, authEpoch, Some(perms), Audience(perms),
        Some(Truncated(now)), Some(Truncated(now)), Some(Truncated(now + ttl)))))
  }

  // ----- Verifying -----

  /** One or two distinct known audiences, among them the first-party one and the one asked for. */
  predicate AudienceOK(aud: seq<string>, wanted: string) {
    && (|aud| == 1 || |aud| == 2)
    && (forall i | 0 <= i < |aud| :: aud[i] == FINN || aud[i] == JAKE)
    && (forall i, j | 0 <= i < j < |aud| :: aud[i] != aud[j])
    && wanted in aud && FINN in aud
  }

  method CheckAudience(aud: seq<string>, wanted: string) returns (ok: bool)
    ensures ok <==> AudienceOK(aud, wanted)
  {
    if |aud| != 1 && |aud| != 2 {
      return false;
    }
    var hasWanted, hasFinn, hasJake := false, false, false;
    for i := 0 to |aud|
      invariant hasWanted <==> wanted in aud[..i]
      invariant hasFinn <==> FINN in aud[..i]
      invariant hasJake <==> JAKE in aud[..i]
      invariant forall j | 0 <= j < i :: aud[j] == FINN || aud[j] == JAKE
      invariant forall j, k | 0 <= j < k < i :: aud[j] != aud[k]
    {
      assert aud[..i + 1] == aud[..i] + [aud[i]];
      if aud[i] == wanted {
        hasWanted := true;
      }
      if aud[i] == FINN {
        if hasFinn {
          return false;
        }
        hasFinn := true;
      } else if aud[i] == JAKE {
        if hasJake {
          return false;
        }
        hasJake := true;
      } else {
        return false;
      }
    }
    assert aud[..|aud|] == aud;
    return hasWanted && hasFinn;
  }

  predicate Blank(s: string) {
    forall i | 0 <= i < |s| :: s[i] in " \t\n\r"
  }

  predicate ValidAccess(c: Claims, audience: string, now: int) {
    && c.contractVersion == 1 && c.issuer == ISSUER && c.kind == ACCESS && c.userID != 0 && c.subject == Digits(c.userID)
    && !Blank(c.tenantID) && c.jti != "" && c.sid != "" && c.permissions.Some? && c.pwdVer >= 0 && c.authEpoch >= 0
    && c.expiresAt.Some? && c.issuedAt.Some? && c.notBefore.Some?
    && c.expiresAt.value >= 0 && c.issuedAt.value >= 0 && c.notBefore.value >= 0
    && 0 < c.expiresAt.value - c.issuedAt.value <= MAX_ACCESS_TTL
    && c.issuedAt.value <= c.notBefore.value <= c.expiresAt.value
    && c.issuedAt.value <= now + MAX_SKEW && c.notBefore.value <= now + MAX_SKEW && now < c.expiresAt.value + MAX_SKEW
    && AudienceOK(c.audience, audience)
  }

  /** validateAccess: the claim checks in order, then the audience loop. */
  method ValidateAccess(c: Claims, audience: string, now: int) returns (ok: bool)
    ensures ok <==> ValidAccess(c, audience, now)
  {
    if c.contractVersion != 1 || c.issuer != ISSUER || c.kind != ACCESS || c.userID == 0 || c.subject != Digits(c.userID)
       || Blank(c.tenantID) || c.jti == "" || c.sid == "" || c.permissions.None? || c.pwdVer < 0 || c.authEpoch < 0 {
      return false;
    }
    if c.expiresAt.None? || c.issuedAt.None? || c.notBefore.None? {
      return false;
    }
    var exp, iat, nbf := c.expiresAt.value, c.issuedAt.value, c.notBefore.value;
    if exp < 0 || iat < 0 || nbf < 0 {
      return false;
    }
    if exp - iat <= 0 || exp - iat > MAX_ACCESS_TTL || nbf < iat || nbf > exp {
      return false;
    }
    if iat > now + MAX_SKEW || nbf > now + MAX_SKEW || !(now < exp + MAX_SKEW) {
      return false;
    }
    ok := CheckAudience(c.audience, audience);
  }

  /** The registered-claim checks of the JWT library, with the configured leeway. */
  predicate LibraryAccepts(c: Claims, now: int) {
    && c.issuer == ISSUER
    && c.expiresAt.Some? && now < c.expiresAt.value + MAX_SKEW
    && (c.issuedAt.Some? ==> now >= c.issuedAt.value - MAX_SKEW)
    && (c.notBefore.Some? ==> now >= c.notBefore.value - MAX_SKEW)
  }

  /** The token names the previous key after its drain deadline. */
  predicate RefusedAsRetired(m: Manager, tok: Token, now: int) {
    tok.kid == m.previousID && now >= m.previousRetires
  }

  predicate Verifies(m: Manager, tok: Token, now: int) {
    && tok.wellFormed
    && tok.kid != "" && !RefusedAsRetired(m, tok, now)
    && tok.kid in m.keys && tok.signedWith == m.keys[tok.kid]
    && LibraryAccepts(tok.claims, now)
    && (if tok.claims.kind == ACCESS then ValidAccess(tok.claims, FINN, now)
        else tok.claims.tenantID != "" && tok.claims.userID != 0 && tok.claims.subject == Digits(tok.claims.userID)
             && tok.claims.audience == [PURPOSE + tok.claims.kind] && tok.claims.issuedAt.Some? && tok.claims.notBefore.Some?)
  }

  predicate VerifiesAccess(m: Manager, tok: Token, audience: string, now: int) {
    (audience == FINN || audience == JAKE) && Verifies(m, tok, now) && ValidAccess(tok.claims, audience, now)
  }

  // ----- Rounding -----

  lemma TruncatedBounds(t: int)
    ensures Truncated(t) <= t < Truncated(t) + SECOND
  {
  }

  /** Rounding both ends to whole seconds keeps the lifetime within bounds, and positive for a TTL of at least one second. */
  lemma IssuedLifetime(t: int, ttl: int)
    requires 0 < ttl <= MAX_ACCESS_TTL
    ensures 0 <= Truncated(t + ttl) - Truncated(t) <= MAX_ACCESS_TTL
    ensures ttl >= SECOND ==> Truncated(t + ttl) > Truncated(t)
  {
  }

  // ----- Exact acceptance window -----

  /**
   * An issued token is accepted by a manager that holds its key, for an audience
   * it carries, exactly from skew before its issue second until skew after its
   * expiry second, unless the key is retired; a lifetime rounded down to nothing
   * is never accepted.
   */
  lemma AcceptanceWindow(
    m: Manager, m': Manager, userID: nat, ttl: int, pwdVer: int, authEpoch: int, sid: string, tid: string, jti: string,
    perms: seq<string>, t: int, audience: string, now: int)
    requires IssueAccess(m, userID, ttl, pwdVer, authEpoch, sid, tid, jti, perms, t).Some?
    requires m.currentKid != "" && m.currentKid in m'.keys && m'.keys[m.currentKid] == m.current
    requires audience in Audience(perms) && !Blank(tid) && jti != "" && t >= 0
    ensures var tok := IssueAccess(m, userID, ttl, pwdVer, authEpoch, sid, tid, jti, perms, t).value;
      VerifiesAccess(m', tok, audience, now) <==>
        && Truncated(t) < Truncated(t + ttl)
        && Truncated(t) - MAX_SKEW <= now < Truncated(t + ttl) + MAX_SKEW
        && !RefusedAsRetired(m', tok, now)
  {
    IssuedLifetime(t, ttl);
    assert Audience(perms)[0] == FINN;
  }

  // ----- Rotation -----

  /** The configuration after rotation: the old current key has become the previous one, last used at `lastIssued`. */
  predicate Rotated(m: Manager, c: KeyConfig, lastIssued: int) {
    c.previousID == m.currentKid && c.previousSecret == Strong(m.current) && c.previousLastIssued == Some(lastIssued)
  }

  /**
   * Rotation cuts nobody off: a token issued under the old key no later than the
   * recorded last issuance is accepted by the rotated manager exactly when the
   * old manager would still accept it.
   */
  lemma RotationInvisible(
    m: Manager, c: KeyConfig, started: int, lastIssued: int, userID: nat, ttl: int, pwdVer: int, authEpoch: int,
    sid: string, tid: string, jti: string, perms: seq<string>, t: int, audience: string, now: int)
    requires NewConfiguredManager(c, started).Some? && Rotated(m, c, lastIssued)
    requires m.currentKid in m.keys && m.keys[m.currentKid] == m.current && m.previousID != m.currentKid
    requires IssueAccess(m, userID, ttl, pwdVer, authEpoch, sid, tid, jti, perms, t).Some? && t <= lastIssued
    requires audience in Audience(perms) && !Blank(tid) && jti != "" && t >= 0
    ensures var tok := IssueAccess(m, userID, ttl, pwdVer, authEpoch, sid, tid, jti, perms, t).value;
      VerifiesAccess(NewConfiguredManager(c, started).value, tok, audience, now) <==> VerifiesAccess(m, tok, audience, now)
  {
    var m' := NewConfiguredManager(c, started).value;
    AcceptanceWindow(m, m, userID, ttl, pwdVer, authEpoch, sid, tid, jti, perms, t, audience, now);
    AcceptanceWindow(m, m', userID, ttl, pwdVer, authEpoch, sid, tid, jti, perms, t, audience, now);
    TruncatedBounds(t + ttl);
  }

  /** Nothing signed with the previous key, of any shape, is accepted from the deadline on. */
  lemma RetiredKeyIsDead(m: Manager, c: KeyConfig, started: int, lastIssued: int, tok: Token, now: int)
    requires NewConfiguredManager(c, started).Some? && Rotated(m, c, lastIssued)
    requires tok.signedWith == m.current && now >= lastIssued + KEY_DRAIN
    ensures !Verifies(NewConfiguredManager(c, started).value, tok, now)
  {
    var m' := NewConfiguredManager(c, started).value;
    assert tok.kid in m'.keys ==> tok.kid == c.currentID || tok.kid == m'.previousID;
  }

  /** No shorter drain would do: the last possible token is still accepted one nanosecond before the deadline. */
  lemma DrainIsTight(m: Manager, c: KeyConfig, started: int, lastIssued: int, userID: nat, sid: string, tid: string, jti: string, perms: seq<string>)
    requires NewConfiguredManager(c, started).Some? && Rotated(m, c, lastIssued) && lastIssued >= 0 && lastIssued % SECOND == 0
    requires m.currentKid in m.keys && m.keys[m.currentKid] == m.current && m.previousID != m.currentKid
    requires userID != 0 && sid != "" && !Blank(tid) && jti != ""
    ensures var tok := IssueAccess(m, userID, MAX_ACCESS_TTL, 0, 0, sid, tid, jti, perms, lastIssued);
      tok.Some? && VerifiesAccess(NewConfiguredManager(c, started).value, tok.value, FINN, lastIssued + KEY_DRAIN - 1)
  {
    assert Audience(perms)[0] == FINN;
    AcceptanceWindow(m, NewConfiguredManager(c, started).value, userID, MAX_ACCESS_TTL, 0, 0, sid, tid, jti, perms,
                     lastIssued, FINN, lastIssued + KEY_DRAIN - 1);
  }

  /** A TTL of at least one second gives every issued token a moment at which its issuer accepts it. */
  lemma IssuedIsUsable(
    m: Manager, userID: nat, ttl: int, pwdVer: int, authEpoch: int, sid: string, tid: string, jti: string, perms: seq<string>, t: int)
    requires IssueAccess(m, userID, ttl, pwdVer, authEpoch, sid, tid, jti, perms, t).Some?
    requires m.currentKid != "" && m.currentKid in m.keys && m.keys[m.currentKid] == m.current && m.previousID != m.currentKid
    requires !Blank(tid) && jti != "" && t >= 0
    ensures var tok := IssueAccess(m, userID, ttl, pwdVer, authEpoch, sid, tid, jti, perms, t).value;
      (exists now: int :: VerifiesAccess(m, tok, FINN, now)) <==> Truncated(t) < Truncated(t + ttl)
    ensures ttl >= SECOND ==> Truncated(t) < Truncated(t + ttl)
  {
    var tok := IssueAccess(m, userID, ttl, pwdVer, authEpoch, sid, tid, jti, perms, t).value;
    assert Audience(perms)[0] == FINN;
    IssuedLifetime(t, ttl);
    forall now: int ensures VerifiesAccess(m, tok, FINN, now) <==>
      Truncated(t) < Truncated(t + ttl) && Truncated(t) - MAX_SKEW <= now < Truncated(t + ttl) + MAX_SKEW
    {
      AcceptanceWindow(m, m, userID, ttl, pwdVer, authEpoch, sid, tid, jti, perms, t, FINN, now);
    }
    if Truncated(t) < Truncated(t + ttl) { assert VerifiesAccess(m, tok, FINN, Truncated(t)); }
  }

  /** Below one second the promise fails: whenever issue and expiry fall into one second, the issuer refuses its own token at all times. */
  lemma SubSecondTokenIsDead(
    m: Manager, m': Manager, ttl: int, userID: nat, pwdVer: int, authEpoch: int, sid: string, tid: string, jti: string, perms: seq<string>,
    t: int, audience: string, now: int)
    requires IssueAccess(m, userID, ttl, pwdVer, authEpoch, sid, tid, jti, perms, t).Some? && Truncated(t) == Truncated(t + ttl)
    ensures !VerifiesAccess(m', IssueAccess(m, userID, ttl, pwdVer, authEpoch, sid, tid, jti, perms, t).value, audience, now)
    ensures ttl < SECOND
  {
    IssuedLifetime(t, ttl);
  }

  /** Every TTL below a second has such issue times: the start of any second is one. */
  lemma SubSecondHappens(ttl: int, second: int)
    requires 0 < ttl < SECOND
    ensures Truncated(second * SECOND) == Truncated(second * SECOND + ttl) == second * SECOND
  {
  }
}
