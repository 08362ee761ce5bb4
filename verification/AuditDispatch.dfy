/** Which row a dispatch iteration takes, and when a dispatch stops short (internal/repositories/audit_outbox.go). */
module AuditDispatch {
  import opened Common
  import opened AuditEvent
  import opened AuditPipeline
  import opened AuditInvariant
  import opened PermissionList

  // ----- The ordered query of Claim -----

  /** A due row that no other transaction has locked during the query. */
  predicate Candidate(outbox: map<string, OutboxRow>, skipped: set<string>, id: string, now: int) {
    id in outbox && id !in skipped && Due(outbox[id], now)
  }

  predicate NothingDue(outbox: map<string, OutboxRow>, skipped: set<string>, now: int) {
    forall id | id in outbox :: !Candidate(outbox, skipped, id, now)
  }

  /** ORDER BY available_at, event_id. */
  predicate Before(outbox: map<string, OutboxRow>, a: string, b: string)
    requires a in outbox && b in outbox
  {
    outbox[a].availableAt < outbox[b].availableAt || (outbox[a].availableAt == outbox[b].availableAt && StrLe(a, b))
  }

  predicate IsFirst(outbox: map<string, OutboxRow>, skipped: set<string>, id: string, now: int) {
    && Candidate(outbox, skipped, id, now)
    && forall o | o in outbox :: Candidate(outbox, skipped, o, now) ==> Before(outbox, id, o)
  }

  /** The row has had its eight hand-outs: claiming it again buries it. */
  predicate Exhausted(outbox: map<string, OutboxRow>, id: string) {
    id in outbox && outbox[id].attempts == MAX_ATTEMPTS
  }

  /** The row the query returns is exhausted. */
  predicate FrontExhausted(outbox: map<string, OutboxRow>, skipped: set<string>, now: int) {
    exists id | id in outbox :: IsFirst(outbox, skipped, id, now) && Exhausted(outbox, id)
  }

  lemma {:induction false} LeastExists(outbox: map<string, OutboxRow>, ids: set<string>) returns (least: string)
    requires ids != {} && ids <= outbox.Keys
    ensures least in ids && forall o | o in ids :: Before(outbox, least, o)
    decreases |ids|
  {
    var id :| id in ids;
    LeTotal(id, id);
    if ids == {id} { return id; }
    var rest := LeastExists(outbox, ids - {id});
    LeTotal(id, rest);
    if Before(outbox, rest, id) { return rest; }
    forall o | o in ids ensures Before(outbox, id, o) {
      if o != id {
        assert Before(outbox, rest, o);
        if StrLe(id, rest) && StrLe(rest, o) { LeTransitive(id, rest, o); }
      }
    }
    return id;
  }

  lemma FirstExists(outbox: map<string, OutboxRow>, skipped: set<string>, now: int)
    requires !NothingDue(outbox, skipped, now)
    ensures exists id :: id in outbox && IsFirst(outbox, skipped, id, now)
  {
    var due := set id | id in outbox && Candidate(outbox, skipped, id, now);
    var some :| some in outbox && Candidate(outbox, skipped, some, now);
    assert some in due;
    var least := LeastExists(outbox, due);
    assert IsFirst(outbox, skipped, least, now);
  }

  lemma FirstUnique(outbox: map<string, OutboxRow>, skipped: set<string>, a: string, b: string, now: int)
    requires IsFirst(outbox, skipped, a, now) && IsFirst(outbox, skipped, b, now)
    ensures a == b
  {
    assert Before(outbox, a, b) && Before(outbox, b, a);
    LeAntisymmetric(a, b);
  }

  // ----- A reachable state in which a dispatch stops although a row is due -----

  ghost predicate Reachable(env: Env, w: World) {
    exists run: seq<World>, steps: seq<Step> :: IsRun(env, run, steps) && Initial(run[0]) && run[|run| - 1] == w
  }

  lemma ReachStep(env: Env, w: World, s: Step)
    requires Reachable(env, w) && Enabled(env, w, s)
    ensures Reachable(env, Next(env, w, s))
  {
    var run, steps :| IsRun(env, run, steps) && Initial(run[0]) && run[|run| - 1] == w;
    var run', steps' := run + [Next(env, w, s)], steps + [s];
    forall i | 0 <= i < |steps'| ensures StepAt(env, run', steps', i) {
      if i < |steps| { assert StepAt(env, run, steps, i); }
    }
    assert IsRun(env, run', steps') && run'[0] == run[0];
  }

  const INPUT := AuditLog("", None, "", "login", "", true, "", "", "", 0, 0, "", None, "", "", 0, "", "")

  function ContextFor(id: string, now: int): Context {
    Context("t", 0, false, "", false, false, id, "r", now)
  }

  /** Row "a" has been claimed `n` times and never answered for; row "b" waits behind it. */
  ghost predicate Stage(w: World, n: nat) {
    && w.db.outbox.Keys == {"a", "b"}
    && w.db.outbox["a"].attempts == n && w.db.outbox["a"].availableAt == 0
    && (if n == 0 then w.db.outbox["a"].phase == Pending
        else w.db.outbox["a"].phase == Leased && w.db.outbox["a"].leaseUntil == Some(n * LEASE))
    && w.db.outbox["b"].phase == Pending && w.db.outbox["b"].availableAt == 1
    && (forall token | token in w.tokens :: |token| <= n)
  }

  lemma ZerosLength(n: nat)
    ensures |Zeros(n)| == n
  {
  }

  lemma AdmitTwo(env: Env, k: Keys) returns (w: World)
    requires Trusted(env, k) && env.capacity >= 2
    ensures Reachable(env, w) && Stage(w, 0)
  {
    var w0 := World(Database(map[], map[], map[], map[], map[]), map[], {});
    assert Reachable(env, w0) by { assert IsRun(env, [w0], []) && Initial([w0][0]); }
    var w1 := AdmitFirst(env, k, w0);
    w := AdmitSecond(env, k, w1);
  }

  lemma AdmitFirst(env: Env, k: Keys, w: World) returns (w': World)
    requires Trusted(env, k) && env.capacity >= 2 && Reachable(env, w) && Initial(w)
    ensures Reachable(env, w') && w'.tokens == {} && w'.db.outbox.Keys == {"a"}
    ensures HeadOf(w'.db, "t").pending == 1 && HeadOf(w'.db, "t").sequence == 1
    ensures var row := w'.db.outbox["a"]; row.sequence == 1 && row.phase == Pending && row.attempts == 0 && row.availableAt == 0
  {
    var step := DoAdmit(k, ContextFor("a", 0), Some(INPUT));
    w' := Next(env, w, step);
    ReachStep(env, w, step);
  }

  lemma AdmitSecond(env: Env, k: Keys, w: World) returns (w': World)
    requires Trusted(env, k) && env.capacity >= 2 && Reachable(env, w) && w.tokens == {} && w.db.outbox.Keys == {"a"}
    requires HeadOf(w.db, "t").pending == 1 && HeadOf(w.db, "t").sequence == 1
    requires var row := w.db.outbox["a"]; row.sequence == 1 && row.phase == Pending && row.attempts == 0 && row.availableAt == 0
    ensures Reachable(env, w') && Stage(w', 0)
  {
    var step := DoAdmit(k, ContextFor("b", 1), Some(INPUT));
    assert "b" != "a";
    assert !SequenceTaken(w.db.outbox, "t", 2);
    w' := Next(env, w, step);
    ReachStep(env, w, step);
  }

  lemma {:induction false} Abandon(env: Env, k: Keys, n: nat) returns (w: World)
    requires Trusted(env, k) && env.capacity >= 2 && n <= MAX_ATTEMPTS
    ensures Reachable(env, w) && Stage(w, n)
    decreases n
  {
    if n == 0 {
      w := AdmitTwo(env, k);
    } else {
      var before := Abandon(env, k, n - 1);
      var claim := DoClaim("a", Zeros(n), (n - 1) * LEASE);
      ZerosLength(n);
      assert "b" != "a";
      w := Next(env, before, claim);
      ReachStep(env, before, claim);
    }
  }

  /** The oldest due row is exhausted, and another row is due before and after it is buried. */
  ghost predicate StopsShort(db: Database, first: string, other: string, token: string, now: int) {
    && IsFirst(db.outbox, {}, first, now) && Exhausted(db.outbox, first) && FrontExhausted(db.outbox, {}, now)
    && other != first && Candidate(db.outbox, {}, other, now)
    && TakeClaim(db, first, token, now).outbox[first].phase == Dead
    && Candidate(TakeClaim(db, first, token, now).outbox, {}, other, now)
  }

  /**
   * Such states are reachable: a worker that dies eight times in a row leaves
   * one. The next dispatch buries the first row, reports that there was nothing
   * to claim, and leaves the other row where it is.
   */
  lemma BurialStopsDispatch(env: Env, k: Keys, token: string)
    requires Trusted(env, k) && env.capacity >= 2
    ensures exists w: World :: Reachable(env, w) && StopsShort(w.db, "a", "b", token, MAX_ATTEMPTS * LEASE)
  {
    var w := Abandon(env, k, MAX_ATTEMPTS);
    assert "b" != "a";
    LeTotal("a", "a");
    assert IsFirst(w.db.outbox, {}, "a", MAX_ATTEMPTS * LEASE);
    assert StopsShort(w.db, "a", "b", token, MAX_ATTEMPTS * LEASE);
  }
}
