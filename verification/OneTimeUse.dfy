/** Credentials that work once: reset and verify tokens, and TOTP codes. */
module OneTimeUse {
  import opened Common
  import opened TtlStore

  // ===== Single-use JWTs =====

  const SECOND := 1000
  const LEEWAY := 30 * SECOND
  const HOUR := 3600 * SECOND

  /** jtiStoreTTL: the time left plus an hour, or a day for a token that is past its expiry. */
  function StoreTTL(exp: int, now: int): int {
    if exp - now > 0 then exp - now + HOUR else 24 * HOUR
  }

  function JtiKey(jti: string): string {
    "jti:" + jti
  }

  /** The volatile store, and the used_tokens table as jti to expires_at. */
  datatype Guard = Guard(data: Data, used: map<string, int>)

  /**
   * One event of a serialized history. A consumption whose surrounding
   * operation does not commit leaves its SQL row unwritten; the purge job
   * deletes rows past their expiry; a flush empties the volatile store.
   */
  datatype Event =
    | Consume(jti: string, now: int, commits: bool)
    | Purge(now: int)
    | Sweep(now: int, victims: set<string>)
    | Flush(now: int)

  /** Verification with leeway, then the store guard, then the durable guard. */
  predicate Fresh(g: Guard, jti: string, exp: int, now: int) {
    && now < exp + LEEWAY
    && !LiveAt(g.data, JtiKey(jti), now)
    && jti !in g.used
  }

  function Consumed(g: Guard, jti: string, exp: int, now: int, commits: bool): Guard {
    if now >= exp + LEEWAY then g
    else
      var data := Apply(g.data, now, SetNX(JtiKey(jti), Text("used"), StoreTTL(exp, now))).0;
      Guard(data, if Fresh(g, jti, exp, now) && commits then g.used[jti := exp] else g.used)
  }

  function StepGuard(exps: string -> int, g: Guard, e: Event): Guard {
    match e
    case Consume(jti, now, commits) => Consumed(g, jti, exps(jti), now, commits)
    case Purge(now) => g.(used := map j | j in g.used && !(g.used[j] < now) :: g.used[j])
    case Sweep(now, victims) => g.(data := Apply(g.data, now, Op.Sweep(victims)).0)
    case Flush(_) => g.(data := map[])
  }

  function GuardAfter(exps: string -> int, g: Guard, events: seq<Event>, n: nat): Guard
    requires n <= |events|
  {
    if n == 0 then g else StepGuard(exps, GuardAfter(exps, g, events, n - 1), events[n - 1])
  }

  ghost predicate EventsClocked(events: seq<Event>) {
    forall i, j | 0 <= i <= j < |events| :: events[i].now <= events[j].now
  }

  /** Event `n` is a committed consumption of `jti`. */
  predicate Uses(exps: string -> int, g: Guard, events: seq<Event>, n: nat, jti: string)
    requires n < |events|
  {
    && events[n].Consume? && events[n].jti == jti && events[n].commits
    && Fresh(GuardAfter(exps, g, events, n), jti, exps(jti), events[n].now)
  }

  /** The store entry of a consumed token outlives every moment at which the token still verifies. */
  lemma {:induction false} StoreRemembers(exps: string -> int, g: Guard, events: seq<Event>, i: nat, j: nat, jti: string)
    requires EventsClocked(events) && i < j <= |events| && Uses(exps, g, events, i, jti)
    requires forall m | i < m < j :: !events[m].Flush?
    requires events[j - 1].now < exps(jti) + LEEWAY
    ensures var d := GuardAfter(exps, g, events, j).data;
      JtiKey(jti) in d && d[JtiKey(jti)].exp.Some? && d[JtiKey(jti)].exp.value >= exps(jti) + LEEWAY
    decreases j - i
  {
    var e := events[j - 1];
    if j - 1 > i {
      StoreRemembers(exps, g, events, i, j - 1, jti);
    }
  }

  /** The durable row of a committed consumption is there until the token's expiry has passed. */
  lemma {:induction false} TableRemembers(exps: string -> int, g: Guard, events: seq<Event>, i: nat, j: nat, jti: string)
    requires EventsClocked(events) && i < j <= |events| && Uses(exps, g, events, i, jti)
    requires events[j - 1].now <= exps(jti)
    ensures jti in GuardAfter(exps, g, events, j).used && GuardAfter(exps, g, events, j).used[jti] == exps(jti)
    decreases j - i
  {
    if j - 1 > i {
      TableRemembers(exps, g, events, i, j - 1, jti);
    }
  }

  /** Without a flush no token is consumed twice, at any time it still verifies, leeway included. */
  lemma UsedOnce(exps: string -> int, g: Guard, events: seq<Event>, i: nat, j: nat, jti: string)
    requires EventsClocked(events) && i < j < |events| && Uses(exps, g, events, i, jti)
    requires forall m | i < m < j :: !events[m].Flush?
    ensures !Uses(exps, g, events, j, jti)
  {
    if Uses(exps, g, events, j, jti) {
      StoreRemembers(exps, g, events, i, j, jti);
    }
  }

  /** With flushes at arbitrary moments, a second consumption can only come after the token's own expiry. */
  lemma UsedOnceDespiteFlush(exps: string -> int, g: Guard, events: seq<Event>, i: nat, j: nat, jti: string)
    requires EventsClocked(events) && i < j < |events| && Uses(exps, g, events, i, jti) && Uses(exps, g, events, j, jti)
    ensures events[j].now > exps(jti)
  {
    if events[j].now <= exps(jti) {
      TableRemembers(exps, g, events, i, j, jti);
    }
  }

  // ----- Exactly when a consumed token works again -----

  predicate Consumes(e: Event, jti: string) {
    e.Consume? && e.jti == jti
  }

  /** No presentation of `jti` strictly between the two events. */
  predicate Unpresented(events: seq<Event>, f: int, j: int, jti: string)
    requires 0 <= f && j <= |events|
  {
    forall m | f < m < j :: !Consumes(events[m], jti)
  }

  predicate FlushedAt(events: seq<Event>, f: int, j: int, jti: string)
    requires 0 <= f < j <= |events|
  {
    events[f].Flush? && Unpresented(events, f, j, jti)
  }

  /** A flush after `i` emptied the store, and nobody has presented the token since. */
  predicate StoreForgot(events: seq<Event>, i: nat, j: nat, jti: string)
    requires j <= |events|
  {
    exists f | i < f < j :: FlushedAt(events, f, j, jti)
  }

  predicate PurgedAt(events: seq<Event>, p: int, exp: int)
    requires 0 <= p < |events|
  {
    events[p].Purge? && events[p].now > exp
  }

  /** A purge after `i` ran when the token had expired. */
  predicate TableForgot(events: seq<Event>, i: nat, j: nat, exp: int)
    requires j <= |events|
  {
    exists p | i < p < j :: PurgedAt(events, p, exp)
  }

  lemma StoreForgotStep(events: seq<Event>, i: nat, j: nat, jti: string)
    requires i < j < |events|
    ensures StoreForgot(events, i, j + 1, jti) <==> events[j].Flush? || (StoreForgot(events, i, j, jti) && !Consumes(events[j], jti))
  {
    if events[j].Flush? { assert FlushedAt(events, j, j + 1, jti); }
    if StoreForgot(events, i, j + 1, jti) {
      var f :| i < f < j + 1 && FlushedAt(events, f, j + 1, jti);
      if f < j { assert FlushedAt(events, f, j, jti); }
    }
    if StoreForgot(events, i, j, jti) && !Consumes(events[j], jti) {
      var f :| i < f < j && FlushedAt(events, f, j, jti);
      assert FlushedAt(events, f, j + 1, jti);
    }
  }

  lemma TableForgotStep(events: seq<Event>, i: nat, j: nat, exp: int)
    requires i < j < |events|
    ensures TableForgot(events, i, j + 1, exp) <==> TableForgot(events, i, j, exp) || PurgedAt(events, j, exp)
  {
    if PurgedAt(events, j, exp) { assert i < j < j + 1; }
  }

  lemma JtiKeyInjective(a: string, b: string)
    ensures JtiKey(a) == JtiKey(b) <==> a == b
  {
    assert JtiKey(a)[4..] == a && JtiKey(b)[4..] == b;
  }

  /** The store holds an entry for the token that outlives it. */
  predicate StoreKeeps(data: Data, jti: string, exp: int) {
    JtiKey(jti) in data && data[JtiKey(jti)].exp.Some? && data[JtiKey(jti)].exp.value >= exp + LEEWAY
  }

  /** One event, seen from the token's store key. */
  lemma StoreStep(exps: string -> int, g: Guard, e: Event, jti: string)
    requires e.now < exps(jti) + LEEWAY
    ensures var d, d' := g.data, StepGuard(exps, g, e).data;
      && (e.Flush? ==> JtiKey(jti) !in d')
      && (Consumes(e, jti) && (JtiKey(jti) !in d || StoreKeeps(d, jti, exps(jti))) ==> StoreKeeps(d', jti, exps(jti)))
      && (!e.Flush? && !Consumes(e, jti) && StoreKeeps(d, jti, exps(jti)) ==> StoreKeeps(d', jti, exps(jti)))
      && (!e.Flush? && !Consumes(e, jti) && JtiKey(jti) !in d ==> JtiKey(jti) !in d')
  {
    if e.Consume? { JtiKeyInjective(e.jti, jti); }
  }

  /** While the token verifies, the store knows it exactly unless a flush has been left unrepaired. */
  lemma {:induction false} StoreExact(exps: string -> int, g: Guard, events: seq<Event>, i: nat, j: nat, jti: string)
    requires EventsClocked(events) && i < j <= |events| && Uses(exps, g, events, i, jti)
    requires events[j - 1].now < exps(jti) + LEEWAY
    ensures var d := GuardAfter(exps, g, events, j).data;
      if StoreForgot(events, i, j, jti) then JtiKey(jti) !in d else StoreKeeps(d, jti, exps(jti))
    decreases j - i
  {
    if j - 1 > i {
      StoreExact(exps, g, events, i, j - 1, jti);
      StoreForgotStep(events, i, j - 1, jti);
      StoreStep(exps, GuardAfter(exps, g, events, j - 1), events[j - 1], jti);
    }
  }

  /** As long as nobody consumes it again, the table knows the token exactly unless a late purge ran. */
  lemma {:induction false} TableExact(exps: string -> int, g: Guard, events: seq<Event>, i: nat, j: nat, jti: string)
    requires i < j <= |events| && Uses(exps, g, events, i, jti)
    requires forall m | i < m < j :: !Uses(exps, g, events, m, jti)
    ensures var u := GuardAfter(exps, g, events, j).used;
      if TableForgot(events, i, j, exps(jti)) then jti !in u else jti in u && u[jti] == exps(jti)
    decreases j - i
  {
    if j - 1 > i {
      TableExact(exps, g, events, i, j - 1, jti);
      TableForgotStep(events, i, j - 1, exps(jti));
      assert !Uses(exps, g, events, j - 1, jti);
    }
  }

  /**
   * After a consumption, the next committing presentation is accepted again
   * exactly when it comes within the leeway, a flush emptied the store and nobody
   * has presented the token since, and a purge ran after the token's expiry.
   */
  lemma ReuseExact(exps: string -> int, g: Guard, events: seq<Event>, i: nat, j: nat, jti: string)
    requires EventsClocked(events) && i < j < |events| && Uses(exps, g, events, i, jti)
    requires forall m | i < m < j :: !Uses(exps, g, events, m, jti)
    requires Consumes(events[j], jti) && events[j].commits
    ensures Uses(exps, g, events, j, jti) <==>
      && events[j].now < exps(jti) + LEEWAY
      && StoreForgot(events, i, j, jti)
      && TableForgot(events, i, j, exps(jti))
  {
    if events[j].now < exps(jti) + LEEWAY {
      assert events[j - 1].now <= events[j].now;
      StoreExact(exps, g, events, i, j, jti);
      TableExact(exps, g, events, i, j, jti);
    }
  }

  function ExpiresAtZero(jti: string): int {
    0
  }

  /** That case is real: purge and flush inside the leeway, and the token works again. */
  lemma LeewayReuse(jti: string)
    ensures var events := [Consume(jti, -1, true), Purge(1), Flush(1), Consume(jti, 2, true)];
      var g := Guard(map[], map[]);
      EventsClocked(events) && Uses(ExpiresAtZero, g, events, 0, jti) && Uses(ExpiresAtZero, g, events, 3, jti)
  {
    var events := [Consume(jti, -1, true), Purge(1), Flush(1), Consume(jti, 2, true)];
    var g := Guard(map[], map[]);
    assert GuardAfter(ExpiresAtZero, g, events, 0) == g;
    var g1 := GuardAfter(ExpiresAtZero, g, events, 1);
    assert g1 == StepGuard(ExpiresAtZero, g, events[0]) && g1.used == map[jti := 0];
    var g2 := GuardAfter(ExpiresAtZero, g, events, 2);
    assert g2 == StepGuard(ExpiresAtZero, g1, events[1]) && g2.used == map[];
    assert GuardAfter(ExpiresAtZero, g, events, 3) == StepGuard(ExpiresAtZero, g2, events[2]) == g;
  }

  // ===== TOTP codes =====

  const TOTP_PERIOD := 30
  const TOTP_SKEW := 1
  const TOTP_REPLAY_TTL := 120

  type Hotp = (string, int) -> string

  function TimeStep(now: int, period: int): int
    requires period > 0
  {
    now / period
  }

  /** The code is the one of time step `c`, and `c` is within the skew of the current step. */
  predicate MatchesStep(hotp: Hotp, period: int, skew: nat, secret: string, code: string, now: int, c: int)
    requires period > 0
  {
    TimeStep(now, period) - skew <= c <= TimeStep(now, period) + skew && hotp(secret, c) == code
  }

  function ReplayKey(user: nat, code: string): string {
    "totp:replay:" + Digits(user) + ":" + code
  }

  /** Every use of a replay key in the history is the guard of Validate or ViewRecoveryCodes. */
  predicate GuardHistory(calls: seq<Call>, key: string, ttl: int) {
    forall i | 0 <= i < |calls| :: Touches(calls[i].op, key) ==> calls[i].op == SetNX(key, Text("1"), ttl)
  }

  predicate Wins(data: Data, calls: seq<Call>, key: string, n: nat)
    requires n < |calls|
  {
    calls[n].op.SetNX? && calls[n].op.key == key && ReplyAt(data, calls, n) == Flag(true)
  }

  /** A won guard stays set for its whole TTL, whatever else happens in the store. */
  lemma {:induction false} GuardStays(data: Data, calls: seq<Call>, key: string, ttl: int, i: nat, j: nat, now: int)
    requires ttl > 0 && Clocked(calls) && GuardHistory(calls, key, ttl)
    requires i < j <= |calls| && Wins(data, calls, key, i) && calls[j - 1].now <= now <= calls[i].now + ttl
    ensures key in After(data, calls, j) && After(data, calls, j)[key].exp == Some(calls[i].now + ttl)
    decreases j - i
  {
    var c := calls[j - 1];
    if j - 1 > i {
      GuardStays(data, calls, key, ttl, i, j - 1, c.now);
      if !Touches(c.op, key) { Untouched(After(data, calls, j - 1), c.now, c.op, key); }
    }
  }

  lemma GuardOnce(data: Data, calls: seq<Call>, key: string, ttl: int, i: nat, j: nat)
    requires ttl > 0 && Clocked(calls) && GuardHistory(calls, key, ttl)
    requires i < j < |calls| && Wins(data, calls, key, i) && Wins(data, calls, key, j)
    ensures calls[j].now > calls[i].now + ttl
  {
    if calls[j].now <= calls[i].now + ttl {
      GuardStays(data, calls, key, ttl, i, j, calls[j].now);
    }
  }

  /** Call `n` accepts `code` for time step `c`: the code matched, and its guard was won. */
  predicate Accepts(hotp: Hotp, period: int, skew: nat, data: Data, calls: seq<Call>, n: nat, user: nat, secret: string, code: string, c: int)
    requires period > 0 && n < |calls|
  {
    MatchesStep(hotp, period, skew, secret, code, calls[n].now, c) && Wins(data, calls, ReplayKey(user, code), n)
  }

  /** No two acceptances of a code share a time step, in any history of the store. */
  ghost predicate OneTime(period: int, skew: nat, ttl: int)
    requires period > 0
  {
    forall hotp: Hotp, data: Data, calls: seq<Call>, i: nat, j: nat, user: nat, secret: string, code: string, c: int |
      && Clocked(calls) && GuardHistory(calls, ReplayKey(user, code), ttl) && i < j < |calls|
      && Accepts(hotp, period, skew, data, calls, i, user, secret, code, c)
      :: !Accepts(hotp, period, skew, data, calls, j, user, secret, code, c)
  }

  lemma Scaled(a: int, b: int, p: int)
    requires a <= b && p > 0
    ensures a * p <= b * p
  {
  }

  lemma StepsApart(period: int, skew: nat, t: int, t': int, c: int)
    requires period > 0 && t <= t'
    requires TimeStep(t, period) - skew <= c <= TimeStep(t, period) + skew
    requires TimeStep(t', period) - skew <= c <= TimeStep(t', period) + skew
    ensures t' - t <= (2 * skew + 1) * period - 1
  {
    var a, b, n := TimeStep(t, period), TimeStep(t', period), 2 * skew;
    StepBounds(t, period);
    StepBounds(t', period);
    Scaled(b, a + n, period);
    assert (a + n) * period == a * period + n * period;
    assert (n + 1) * period == n * period + period;
  }

  lemma StepBounds(t: int, period: int)
    requires period > 0
    ensures TimeStep(t, period) * period <= t < TimeStep(t, period) * period + period
  {
  }

  /** Validate and ViewRecoveryCodes together never accept one code twice for one step, given a long enough replay TTL. */
  lemma CodeUsedOnce(
    hotp: Hotp, period: int, skew: nat, ttl: int, data: Data, calls: seq<Call>,
    i: nat, j: nat, user: nat, secret: string, code: string, c: int)
    requires period > 0 && ttl > 0 && ttl >= (2 * skew + 1) * period - 1
    requires Clocked(calls) && GuardHistory(calls, ReplayKey(user, code), ttl) && i < j < |calls|
    requires Accepts(hotp, period, skew, data, calls, i, user, secret, code, c)
    ensures !Accepts(hotp, period, skew, data, calls, j, user, secret, code, c)
  {
    if Accepts(hotp, period, skew, data, calls, j, user, secret, code, c) {
      GuardOnce(data, calls, ReplayKey(user, code), ttl, i, j);
      StepsApart(period, skew, calls[i].now, calls[j].now, c);
    }
  }

  /** The guard calls at the first and at the last moment of validity of the code for time step `skew`. */
  function EdgeCalls(period: int, skew: nat, ttl: int, key: string): seq<Call> {
    [Call(0, SetNX(key, Text("1"), ttl)), Call((2 * skew + 1) * period - 1, SetNX(key, Text("1"), ttl))]
  }

  /** With a shorter TTL both of them succeed, whatever the code generator, the user and the secret. */
  lemma ShortTTLReplays(hotp: Hotp, period: int, skew: nat, ttl: int, user: nat, secret: string)
    requires period > 0 && 0 < ttl < (2 * skew + 1) * period - 1
    ensures var code := hotp(secret, skew);
      var calls := EdgeCalls(period, skew, ttl, ReplayKey(user, code));
      && Clocked(calls) && GuardHistory(calls, ReplayKey(user, code), ttl)
      && Accepts(hotp, period, skew, map[], calls, 0, user, secret, code, skew)
      && Accepts(hotp, period, skew, map[], calls, 1, user, secret, code, skew)
  {
    var code := hotp(secret, skew);
    var key := ReplayKey(user, code);
    var last := (2 * skew + 1) * period - 1;
    var calls := EdgeCalls(period, skew, ttl, key);
    assert last == (2 * skew) * period + (period - 1);
    LastStep(period, 2 * skew, last);
    assert After(map[], calls, 1) == map[key := Entry(Text("1"), Some(ttl))];
    assert Accepts(hotp, period, skew, map[], calls, 0, user, secret, code, skew);
    assert Accepts(hotp, period, skew, map[], calls, 1, user, secret, code, skew);
  }

  lemma LastStep(period: int, q: int, t: int)
    requires period > 0 && t == q * period + (period - 1)
    ensures TimeStep(t, period) == q
  {
    var s := TimeStep(t, period);
    StepBounds(t, period);
    if s > q { Scaled(q + 1, s, period); }
    if s < q { Scaled(s + 1, q, period); }
  }

  function ZeroCode(secret: string, c: int): string {
    "000000"
  }

  /** One-time use holds exactly when the replay TTL covers the whole validity window of a code. */
  lemma OneTimeExact(period: int, skew: nat, ttl: int)
    requires period > 0 && ttl > 0
    ensures OneTime(period, skew, ttl) <==> ttl >= (2 * skew + 1) * period - 1
    ensures OneTime(TOTP_PERIOD, TOTP_SKEW, TOTP_REPLAY_TTL)
  {
    if ttl < (2 * skew + 1) * period - 1 {
      ShortTTLReplays(ZeroCode, period, skew, ttl, 0, "");
    } else {
      LongTTLOneTime(period, skew, ttl);
    }
    LongTTLOneTime(TOTP_PERIOD, TOTP_SKEW, TOTP_REPLAY_TTL);
  }

  lemma LongTTLOneTime(period: int, skew: nat, ttl: int)
    requires period > 0 && ttl > 0 && ttl >= (2 * skew + 1) * period - 1
    ensures OneTime(period, skew, ttl)
  {
    forall hotp: Hotp, data: Data, calls: seq<Call>, i: nat, j: nat, user: nat, secret: string, code: string, c: int |
      && Clocked(calls) && GuardHistory(calls, ReplayKey(user, code), ttl) && i < j < |calls|
      && Accepts(hotp, period, skew, data, calls, i, user, secret, code, c)
      ensures !Accepts(hotp, period, skew, data, calls, j, user, secret, code, c)
    {
      CodeUsedOnce(hotp, period, skew, ttl, data, calls, i, j, user, secret, code, c);
    }
  }

  // ===== The services on a live store =====

  predicate TotpValid(hotp: Hotp, secret: string, code: string, now: int) {
    exists c | TimeStep(now, TOTP_PERIOD) - TOTP_SKEW <= c <= TimeStep(now, TOTP_PERIOD) + TOTP_SKEW :: hotp(secret, c) == code
  }

  /** The used_tokens table and the shared volatile store. */
  class OneTimeService {
    const store: InMemoryStore
    var used: map<string, int>

    constructor (store: InMemoryStore)
      ensures this.store == store && used == map[]
    {
      this.store := store;
      used := map[];
    }

    /** Consumption of a reset or verify token inside an operation that commits or not. */
    method Consume(jti: string, exp: int, now: int, commits: bool) returns (ok: bool)
      modifies this, store
      ensures ok <==> Fresh(Guard(old(store.data), old(used)), jti, exp, now)
      ensures Guard(store.data, used) == Consumed(Guard(old(store.data), old(used)), jti, exp, now, commits)
    {
      if now >= exp + LEEWAY {
        return false;
      }
      var won := store.SetNX(JtiKey(jti), Text("used"), StoreTTL(exp, now), now);
      if !won || jti in used {
        return false;
      }
      if commits {
        used := used[jti := exp];
      }
      return true;
    }

    /** A six-digit code in Validate or ViewRecoveryCodes: accepted at call `n` of the store exactly when it matches and wins. */
    method AcceptCode(hotp: Hotp, user: nat, secret: string, code: string, now: int) returns (ok: bool)
      modifies store
      ensures !TotpValid(hotp, secret, code, now) ==> !ok && store.data == old(store.data)
      ensures TotpValid(hotp, secret, code, now) ==>
        (store.data, Flag(ok)) == Apply(old(store.data), now, SetNX(ReplayKey(user, code), Text("1"), TOTP_REPLAY_TTL))
    {
      if !TotpValid(hotp, secret, code, now) {
        return false;
      }
      ok := store.SetNX(ReplayKey(user, code), Text("1"), TOTP_REPLAY_TTL, now);
    }
  }
}
