/**
 * The commit policy around every audited service call: one SQL transaction, an
 * error latch for failed audit records, and a short list of denials that may
 * still commit (AuditOperation and database.Operation).
 */
module AuditOperation {
  import opened Common
  import opened AuditEvent
  import opened AuditPipeline
  import opened AuditInvariant
  import opened AuditRepository

  // ----- Service bodies as trees -----

  /**
   * What a service call does: business writes, audit records, and calls of
   * other audited services, which find the operation already bound and run in
   * place. How a body reacts to errors only decides which tree it performs.
   */
  datatype Action =
    | Write(key: string, value: string)
    | Record(ctx: Context, input: Option<AuditLog>)
    | Nested(body: seq<Action>)

  datatype Latch = Latch(failure: Option<Error>, admissions: nat, successful: bool)

  const FRESH := Latch(None, 0, false)

  datatype Store = Store(tables: map<string, string>, world: World)

  predicate AuditDenial(e: Error) {
    e.Service? && e.name in {
      "ErrInvalidCredentials", "ErrInvalidToken", "ErrInvalidCode", "ErrAccountLocked",
      "ErrAccountDisabled", "ErrRateLimited", "ErrPasskeyCredentialRevoked"}
  }

  predicate Admissible(env: Env, k: Keys, w: World, a: Action)
    requires ValidRing(k) && a.Record?
  {
    Admit(env.mac, k, env.capacity, w.db, a.ctx, a.input).error.None?
  }

  function Latched(l: Latch, ok: bool, success: bool): Latch {
    if ok then l.(admissions := l.admissions + 1, successful := l.successful || success)
    else if l.failure.None? then l.(failure := Some(Unavailable))
    else l
  }

  predicate Succeeds(a: Action) {
    a.Record? && a.input.Some? && a.input.value.success
  }

  /** One action inside the transaction: the new store and the new latch. */
  function Perform(env: Env, k: Keys, s: Store, l: Latch, a: Action): (Store, Latch)
    requires ValidRing(k)
    decreases a
  {
    match a
    case Write(key, value) => (s.(tables := s.tables[key := value]), l)
    case Record(ctx, input) =>
      (s.(world := AfterAdmit(env, s.world, k, ctx, input)), Latched(l, Admissible(env, k, s.world, a), Succeeds(a)))
    case Nested(body) => PerformAll(env, k, s, l, body)
  }

  function PerformAll(env: Env, k: Keys, s: Store, l: Latch, body: seq<Action>): (Store, Latch)
    requires ValidRing(k)
    decreases body
  {
    if body == [] then (s, l)
    else
      var (s', l') := Perform(env, k, s, l, body[0]);
      PerformAll(env, k, s', l', body[1..])
  }

  predicate DenialMayCommit(l: Latch) {
    l.admissions > 0 && !l.successful
  }

  /** `result` is what the body returned, `commits` whether COMMIT itself went through. */
  function Operate(env: Env, k: Keys, s: Store, body: seq<Action>, result: Option<Error>, commits: bool): (Store, Option<Error>)
    requires ValidRing(k)
  {
    var (s', l) := PerformAll(env, k, s, FRESH, body);
    if l.failure.Some? then (s, Some(Unavailable))
    else if result.Some? && (!AuditDenial(result.value) || !DenialMayCommit(l)) then (s, result)
    else if !commits then (s, Some(if result.None? then Unavailable else Service("commit")))
    else (s', result)
  }

  // ----- Nesting is transparent -----

  function Leaves(body: seq<Action>): seq<Action>
    decreases body
  {
    if body == [] then []
    else (match body[0] case Nested(inner) => Leaves(inner) case leaf => [leaf]) + Leaves(body[1..])
  }

  predicate Flat(leaves: seq<Action>) {
    forall i | 0 <= i < |leaves| :: !leaves[i].Nested?
  }

  lemma {:induction false} LeavesFlat(body: seq<Action>)
    ensures Flat(Leaves(body))
    decreases body
  {
    if body != [] {
      if body[0].Nested? { LeavesFlat(body[0].body); }
      LeavesFlat(body[1..]);
    }
  }

  lemma {:induction false} PerformAppend(env: Env, k: Keys, s: Store, l: Latch, a: seq<Action>, b: seq<Action>)
    requires ValidRing(k)
    ensures PerformAll(env, k, s, l, a + b) ==
            (var (s', l') := PerformAll(env, k, s, l, a); PerformAll(env, k, s', l', b))
    decreases |a|
  {
    if a == [] {
      assert a + b == b;
    } else {
      var (s', l') := Perform(env, k, s, l, a[0]);
      assert (a + b)[1..] == a[1..] + b;
      PerformAppend(env, k, s', l', a[1..], b);
    }
  }

  /** However deeply audited services call each other, the effect is that of their leaf actions in order. */
  lemma {:induction false} NestingTransparent(env: Env, k: Keys, s: Store, l: Latch, body: seq<Action>)
    requires ValidRing(k)
    ensures PerformAll(env, k, s, l, body) == PerformAll(env, k, s, l, Leaves(body))
    decreases body
  {
    if body != [] {
      var first := match body[0] case Nested(inner) => Leaves(inner) case leaf => [leaf];
      var (s', l') := Perform(env, k, s, l, body[0]);
      if body[0].Nested? {
        NestingTransparent(env, k, s, l, body[0].body);
      } else {
        assert first[1..] == [];
      }
      assert PerformAll(env, k, s, l, first) == (s', l');
      NestingTransparent(env, k, s', l', body[1..]);
      PerformAppend(env, k, s, l, first, Leaves(body[1..]));
    }
  }

  // ----- What an operation amounts to -----

  /** Every record among the leaves would be admitted, each on top of the ones before it. */
  predicate AllAdmitted(env: Env, k: Keys, w: World, leaves: seq<Action>)
    requires ValidRing(k)
    decreases |leaves|
  {
    leaves == [] || (
      if leaves[0].Record?
      then Admissible(env, k, w, leaves[0]) && AllAdmitted(env, k, AfterAdmit(env, w, k, leaves[0].ctx, leaves[0].input), leaves[1..])
      else AllAdmitted(env, k, w, leaves[1..]))
  }

  predicate SomeRecord(leaves: seq<Action>) {
    exists i :: 0 <= i < |leaves| && leaves[i].Record?
  }

  predicate SomeSuccess(leaves: seq<Action>) {
    exists i :: 0 <= i < |leaves| && Succeeds(leaves[i])
  }

  lemma {:induction false} LatchMeaning(env: Env, k: Keys, s: Store, l: Latch, leaves: seq<Action>)
    requires ValidRing(k) && Flat(leaves)
    ensures var l' := PerformAll(env, k, s, l, leaves).1;
      && (l'.failure.None? <==> l.failure.None? && AllAdmitted(env, k, s.world, leaves))
      && (AllAdmitted(env, k, s.world, leaves) ==>
            && (l'.admissions > 0 <==> l.admissions > 0 || SomeRecord(leaves))
            && (l'.successful <==> l.successful || SomeSuccess(leaves)))
    decreases |leaves|
  {
    if leaves != [] {
      var (s', l') := Perform(env, k, s, l, leaves[0]);
      LatchMeaning(env, k, s', l', leaves[1..]);
      SplitFirst(leaves);
    }
  }

  lemma SplitFirst(leaves: seq<Action>)
    requires leaves != []
    ensures SomeRecord(leaves) <==> leaves[0].Record? || SomeRecord(leaves[1..])
    ensures SomeSuccess(leaves) <==> Succeeds(leaves[0]) || SomeSuccess(leaves[1..])
  {
    if SomeRecord(leaves[1..]) {
      var i :| 0 <= i < |leaves[1..]| && leaves[1..][i].Record?;
      assert leaves[i + 1].Record?;
    }
    if SomeSuccess(leaves[1..]) {
      var i :| 0 <= i < |leaves[1..]| && Succeeds(leaves[1..][i]);
      assert Succeeds(leaves[i + 1]);
    }
    assert forall i | 1 <= i < |leaves| :: leaves[i] == leaves[1..][i - 1];
  }

  /**
   * The policy, exactly. An operation takes effect if and only if every record
   * anywhere in its tree was admitted, COMMIT went through, and its result is
   * success or a listed denial that recorded evidence and no success. Then all
   * of its leaves took effect and the caller sees its result; otherwise the
   * database is as before and the caller sees an error.
   */
  lemma OperationExact(env: Env, k: Keys, s: Store, body: seq<Action>, result: Option<Error>, commits: bool)
    requires ValidRing(k)
    ensures var leaves := Leaves(body);
      var takesEffect :=
        && AllAdmitted(env, k, s.world, leaves)
        && commits
        && (result.None? || (AuditDenial(result.value) && SomeRecord(leaves) && !SomeSuccess(leaves)));
      var (s', seen) := Operate(env, k, s, body, result, commits);
      && (takesEffect ==> s' == PerformAll(env, k, s, FRESH, leaves).0 && seen == result)
      && (!takesEffect ==> s' == s && seen.Some?)
  {
    NestingTransparent(env, k, s, FRESH, body);
    LeavesFlat(body);
    LatchMeaning(env, k, s, FRESH, Leaves(body));
  }

  // ----- Evidence -----

  /** The chain entry for a record: its event as captured, whatever position the chain gave it. */
  predicate IsEntryOf(e: AuditLog, a: Action)
    requires a.Record?
  {
    var c := Capture(a.ctx, a.input);
    c.Some? && e.(sequence := None, prevHash := "", recordHash := "", keyID := "") == c.value
  }

  /** The outbox row that Admit writes for `e`: its position, its hash and the whole event, waiting for delivery. */
  predicate Queued(db: Database, e: AuditLog) {
    && e.eventID in db.outbox
    && var row := db.outbox[e.eventID];
      && row.tenantID == e.tenantID && Some(row.sequence) == e.sequence && row.hash == e.recordHash && row.keyID == e.keyID
      && row.payload == Some(e) && row.phase == Pending
  }

  /** Event `e` of its tenant's chain is the record's entry, and the tables hold it. */
  predicate EntryIn(w: World, a: Action, e: AuditLog)
    requires a.Record?
  {
    e in History(w, a.ctx.tenant) && IsEntryOf(e, a) && Queued(w.db, e)
  }

  ghost predicate Evidenced(w: World, a: Action)
    requires a.Record?
  {
    exists e :: EntryIn(w, a, e)
  }

  lemma AdmitKeepsEntry(env: Env, k: Keys, w: World, ctx: Context, input: Option<AuditLog>, a: Action, e: AuditLog)
    requires ValidRing(k) && a.Record? && EntryIn(w, a, e)
    ensures EntryIn(AfterAdmit(env, w, k, ctx, input), a, e)
  {
  }

  lemma {:induction false} EntryStays(env: Env, k: Keys, s: Store, l: Latch, leaves: seq<Action>, a: Action, e: AuditLog)
    requires ValidRing(k) && Flat(leaves) && a.Record? && EntryIn(s.world, a, e)
    ensures EntryIn(PerformAll(env, k, s, l, leaves).0.world, a, e)
    decreases |leaves|
  {
    if leaves != [] {
      var (s', l') := Perform(env, k, s, l, leaves[0]);
      if leaves[0].Record? { AdmitKeepsEntry(env, k, s.world, leaves[0].ctx, leaves[0].input, a, e); }
      EntryStays(env, k, s', l', leaves[1..], a, e);
    }
  }

  /** What Admit appends to the chain is the record's entry, and it is queued. */
  lemma AdmittedEntry(env: Env, k: Keys, w: World, a: Action)
    requires ValidRing(k) && a.Record? && Admissible(env, k, w, a)
    ensures EntryIn(AfterAdmit(env, w, k, a.ctx, a.input), a, NextEvent(env.mac, k, w.db, Capture(a.ctx, a.input).value))
  {
    var e := NextEvent(env.mac, k, w.db, Capture(a.ctx, a.input).value);
    var h := History(AfterAdmit(env, w, k, a.ctx, a.input), a.ctx.tenant);
    assert h[|h| - 1] == e && IsEntryOf(e, a);
  }

  lemma {:induction false} AdmittedIsEvidenced(env: Env, k: Keys, s: Store, l: Latch, leaves: seq<Action>, i: nat)
    requires ValidRing(k) && Flat(leaves) && AllAdmitted(env, k, s.world, leaves)
    requires i < |leaves| && leaves[i].Record?
    ensures Evidenced(PerformAll(env, k, s, l, leaves).0.world, leaves[i])
    decreases |leaves|
  {
    var (s', l') := Perform(env, k, s, l, leaves[0]);
    if i > 0 {
      AdmittedIsEvidenced(env, k, s', l', leaves[1..], i - 1);
    } else {
      var a := leaves[0];
      var e := NextEvent(env.mac, k, s.world.db, Capture(a.ctx, a.input).value);
      AdmittedEntry(env, k, s.world, a);
      EntryStays(env, k, s', l', leaves[1..], a, e);
    }
  }

  lemma {:induction false} PerformInv(env: Env, k: Keys, s: Store, l: Latch, leaves: seq<Action>)
    requires Inv(env, s.world) && Trusted(env, k) && Flat(leaves)
    ensures Inv(env, PerformAll(env, k, s, l, leaves).0.world)
    decreases |leaves|
  {
    if leaves != [] {
      var (s', l') := Perform(env, k, s, l, leaves[0]);
      if leaves[0].Record? { AdmitInv(env, s.world, k, leaves[0].ctx, leaves[0].input); }
      PerformInv(env, k, s', l', leaves[1..]);
    }
  }

  /** Whatever a service call does and however it ends, the pipeline invariant survives it. */
  lemma OperateInv(env: Env, k: Keys, s: Store, body: seq<Action>, result: Option<Error>, commits: bool)
    requires Inv(env, s.world) && Trusted(env, k)
    ensures Inv(env, Operate(env, k, s, body, result, commits).0.world)
  {
    NestingTransparent(env, k, s, FRESH, body);
    LeavesFlat(body);
    PerformInv(env, k, s, FRESH, Leaves(body));
  }

  /**
   * A caller that sees success, or a denial that took effect, can rely on every
   * record of the call: its event is in the tenant's chain and in the outbox,
   * with its position, hash and payload, ready for delivery.
   */
  lemma SuccessIsEvidenced(env: Env, k: Keys, s: Store, body: seq<Action>, result: Option<Error>, commits: bool, i: nat)
    requires ValidRing(k)
    requires var (s', seen) := Operate(env, k, s, body, result, commits); seen.None? || s' != s
    requires i < |Leaves(body)| && Leaves(body)[i].Record?
    ensures Evidenced(Operate(env, k, s, body, result, commits).0.world, Leaves(body)[i])
  {
    OperationExact(env, k, s, body, result, commits);
    LeavesFlat(body);
    AdmittedIsEvidenced(env, k, s, FRESH, Leaves(body), i);
  }

  // ----- The objects -----

  class Operation {
    var failure: Option<Error>
    var admissions: nat
    var successful: bool

    constructor ()
      ensures Value() == FRESH
    {
      failure, admissions, successful := None, 0, false;
    }

    ghost function Value(): Latch
      reads this
    {
      Latch(failure, admissions, successful)
    }

    method Admitted(success: bool)
      modifies this
      ensures Value() == Latched(old(Value()), true, success)
    {
      admissions := admissions + 1;
      successful := successful || success;
    }

    /** The first failure sticks. */
    method Fail(e: Error)
      modifies this
      ensures admissions == old(admissions) && successful == old(successful)
      ensures failure == if old(failure).None? then Some(e) else old(failure)
    {
      if failure.None? {
        failure := Some(e);
      }
    }
  }

  /** A service with its business tables, sharing a database with the audit repository. */
  class Services {
    const audits: Repository
    var tables: map<string, string>

    constructor (audits: Repository)
      ensures this.audits == audits && tables == map[]
    {
      this.audits := audits;
      tables := map[];
    }

    ghost function Value(): Store
      reads this, audits
    {
      Store(tables, audits.State())
    }

    method RecordEvent(op: Operation, a: Action)
      requires a.Record? && ValidRing(audits.keys)
      modifies audits, op
      ensures Perform(audits.Environment(), audits.keys, old(Value()), old(op.Value()), a) == (Value(), op.Value())
    {
      var error := audits.Admit(a.ctx, a.input);
      if error.Some? {
        op.Fail(Unavailable);
      } else {
        op.Admitted(a.input.Some? && a.input.value.success);
      }
    }

    method Run(op: Operation, body: seq<Action>)
      requires ValidRing(audits.keys)
      modifies this, audits, op
      ensures PerformAll(audits.Environment(), audits.keys, old(Value()), old(op.Value()), body) == (Value(), op.Value())
      decreases body
    {
      if body != [] {
        match body[0] {
          case Write(key, value) => tables := tables[key := value];
          case Record(_, _) => RecordEvent(op, body[0]);
          case Nested(inner) => Run(op, inner);
        }
        Run(op, body[1..]);
      }
    }

    method AuditOperation(body: seq<Action>, result: Option<Error>, commits: bool) returns (seen: Option<Error>)
      requires ValidRing(audits.keys)
      modifies this, audits
      ensures Operate(audits.Environment(), audits.keys, old(Value()), body, result, commits) == (Value(), seen)
    {
      var heads, outbox, logs, boundaries, legacy := audits.heads, audits.outbox, audits.logs, audits.boundaries, audits.legacy;
      ghost var admitted, tokens := audits.admitted, audits.tokens;
      var before := tables;
      var op := new Operation();
      Run(op, body);
      if op.failure.None? && (result.None? || (AuditDenial(result.value) && op.admissions > 0 && !op.successful)) && commits {
        return result;
      }
      seen := if op.failure.Some? then Some(Unavailable)
              else if result.Some? && (!AuditDenial(result.value) || op.admissions == 0 || op.successful) then result
              else Some(if result.None? then Unavailable else Service("commit"));
      tables := before;
      audits.heads, audits.outbox, audits.logs, audits.boundaries, audits.legacy := heads, outbox, logs, boundaries, legacy;
      audits.admitted, audits.tokens := admitted, tokens;
    }
  }
}
