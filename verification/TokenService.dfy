/** The refresh operation as one uninterrupted transaction (internal/services/auth_service.go). */
module TokenService {
  import opened Common
  import opened RowLocks
  import opened TokenFamily
  import opened FamilyInvariant
  import opened FamilySteps
  import opened FamilySafety

  /** No transaction is open. */
  predicate Idle(st: State) {
    st.txs == map[] && Unlocked(st)
  }

  predicate Unlocked(st: State) {
    st.tokens.locks == map[] && st.sessions.locks == map[]
  }

  /** Only transaction 0 is open, in phase `p`. */
  predicate Alone(st: State, p: Phase) {
    st.txs == map[0 := p]
  }

  /** The token or its session is already revoked, or the session's time is over: a theft signal. */
  predicate ReuseSignal(st: State, h: Hash, active: bool) {
    && h in st.tokens.rows
    && var tok := st.tokens.rows[h];
      || tok.revoked
      || (&& st.now <= tok.expiresAt && active && tok.session in st.sessions.rows
          && (st.sessions.rows[tok.session].revoked || st.now > st.sessions.rows[tok.session].expiresAt))
  }

  predicate Refreshable(st: State, h: Hash, active: bool) {
    && h in st.tokens.rows && !st.tokens.rows[h].revoked && st.now <= st.tokens.rows[h].expiresAt && active
    && SessionAlive(st, st.tokens.rows[h].session)
  }

  /** Only the tables, not the bookkeeping of transactions and ids. */
  predicate SameTables(st: State, st': State) {
    st'.tokens == st.tokens && st'.sessions == st.sessions && st'.rotations == st.rotations
  }

  predicate RotatedTables(st: State, st': State, h: Hash, minted: Hash)
    requires h in st.tokens.rows
  {
    var tok := st.tokens.rows[h];
    && st'.tokens.rows == st.tokens.rows[h := tok.(revoked := true)][minted := Token(tok.session, tok.user, false, st.now + st.refreshTTL)]
    && st'.sessions == st.sessions
  }

  /** One session row and its first token, both bounded by RefreshTTL. */
  predicate LoginTables(st: State, st': State, sid: Sid, user: nat, minted: Hash) {
    && st'.sessions.rows == st.sessions.rows[sid := Session(user, false, st.now + st.refreshTTL)]
    && st'.tokens.rows == st.tokens.rows[minted := Token(sid, user, false, st.now + st.refreshTTL)]
    && st'.rotations == st.rotations
  }

  /** The family of `h` is revoked, row by row, and nothing else has changed. */
  predicate KilledTables(st: State, st': State, h: Hash)
    requires h in st.tokens.rows
  {
    var s := st.tokens.rows[h].session;
    && st'.tokens.rows.Keys == st.tokens.rows.Keys
    && (forall k | k in st.tokens.rows :: st'.tokens.rows[k] ==
          if st.tokens.rows[k].session == s then st.tokens.rows[k].(revoked := true) else st.tokens.rows[k])
    && s in st.sessions.rows && st'.sessions.rows == st.sessions.rows[s := st.sessions.rows[s].(revoked := true)]
    && st'.rotations == st.rotations
  }

  lemma {:induction false} RunOneMore(start: State, steps: seq<Step>, st: State, step: Step)
    requires Run(start, steps) == Some(st) && Enabled(st, step)
    ensures Run(start, steps + [step]) == Some(Next(st, step))
    decreases |steps|
  {
    if steps == [] {
      assert Run(Next(st, step), []) == Some(Next(st, step));
      assert [step][1..] == [];
    } else {
      RunOneMore(Next(start, steps[0]), steps[1..], st, step);
      assert (steps + [step])[1..] == steps[1..] + [step];
    }
  }

  lemma Reachable(start: State, steps: seq<Step>, st: State, h: Hash, s: Sid)
    requires Initial(start) && Run(start, steps) == Some(st)
    ensures HashOK(st, h) && SidOK(st, s)
  {
    ReachableInv(start, steps);
  }

  // ----- The statements of one undisturbed refresh -----

  lemma LoadEffect(st: State, h: Hash)
    requires Idle(st) && h in st.tokens.rows
    ensures Enabled(st, Load(0, h))
    ensures Next(st, Load(0, h)) == st.(txs := map[0 := Loaded(h, st.tokens.rows[h], Current(st.sessions, st.tokens.rows[h].session))])
  {
  }

  /** What the reads and checks at the start of Refresh conclude. */
  function Verdict(st: State, h: Hash, active: bool): Phase
    requires h in st.tokens.rows
  {
    CheckedPhase(st, Loaded(h, st.tokens.rows[h], Current(st.sessions, st.tokens.rows[h].session)), active)
  }

  /** The verdict in terms of the tables. */
  lemma VerdictMeaning(st: State, h: Hash, active: bool)
    requires HashOK(st, h) && h in st.tokens.rows && SidOK(st, st.tokens.rows[h].session)
    ensures Verdict(st, h, active).Reuse? <==> ReuseSignal(st, h, active)
    ensures Verdict(st, h, active).Checked? ==> (Refreshable(st, h, active) <==> SessionAlive(st, st.tokens.rows[h].session))
    ensures !Verdict(st, h, active).Checked? ==> !Refreshable(st, h, active)
    ensures Verdict(st, h, active).Reuse? ==> Verdict(st, h, active) == Reuse(st.tokens.rows[h].session, st.tokens.rows[h].user)
    ensures Verdict(st, h, active).Checked? ==> Verdict(st, h, active) == Checked(h, st.tokens.rows[h], st.now) && !st.tokens.rows[h].revoked
    ensures Verdict(st, h, active).Reuse? || Verdict(st, h, active).Checked? || Verdict(st, h, active).Failing?
  {
  }

  lemma CheckEffect(st: State, h: Hash, active: bool)
    requires h in st.tokens.rows && Alone(st, Loaded(h, st.tokens.rows[h], Current(st.sessions, st.tokens.rows[h].session)))
    ensures Enabled(st, Check(0, active)) && Next(st, Check(0, active)) == st.(txs := map[0 := Verdict(st, h, active)])
  {
  }

  function Won0(st: State, h: Hash): State
    requires h in st.tokens.rows
  {
    var tok := st.tokens.rows[h];
    st.(tokens := Table(st.tokens.rows[h := tok.(revoked := true)], map[h := Lock(0, Some(tok))]), txs := map[0 := Won(h, tok, st.now)])
  }

  lemma SwapEffect(st: State, h: Hash)
    requires Unlocked(st) && h in st.tokens.rows && !st.tokens.rows[h].revoked && Alone(st, Checked(h, st.tokens.rows[h], st.now))
    ensures Enabled(st, Swap(0)) && Next(st, Swap(0)) == Won0(st, h)
  {
    assert Revoked(st, {h}) == map[h := st.tokens.rows[h].(revoked := true)];
    assert Next(st, Swap(0)).tokens == Won0(st, h).tokens;
  }

  function Touched0(st: State, h: Hash): State
    requires h in st.tokens.rows && st.tokens.rows[h].session in st.sessions.rows
  {
    var tok := st.tokens.rows[h];
    Won0(st, h).(sessions := Table(st.sessions.rows, map[tok.session := Lock(0, Some(st.sessions.rows[tok.session]))]),
                 txs := map[0 := Touched(h, tok, st.now)])
  }

  lemma TouchEffect(st: State, h: Hash)
    requires Unlocked(st) && h in st.tokens.rows && st.tokens.rows[h].session in st.sessions.rows
    ensures Enabled(Won0(st, h), Touch(0)) && Next(Won0(st, h), Touch(0)) == Touched0(st, h)
  {
    assert Next(Won0(st, h), Touch(0)).sessions == Touched0(st, h).sessions;
  }

  /** A state with one freshly inserted refresh token. */
  function Minted0(st: State, minted: Hash, s: Sid, user: nat): State {
    st.(tokens := Table(st.tokens.rows[minted := Token(s, user, false, st.now + st.refreshTTL)], st.tokens.locks[minted := Lock(0, None)]),
        family := st.family[minted := s])
  }

  lemma MintEffect(st: State, minted: Hash, s: Sid, user: nat)
    requires minted !in st.tokens.rows && minted !in st.tokens.locks
    ensures Mint(st, 0, minted, s, user) == Minted0(st, minted, s, user)
  {
    var db, row := Mint(st, 0, minted, s, user).tokens, Token(s, user, false, st.now + st.refreshTTL);
    assert db.rows == st.tokens.rows[minted := row];
    assert db.locks == st.tokens.locks[minted := Lock(0, None)];
  }

  function Issued0(st: State, h: Hash, minted: Hash): State
    requires h in st.tokens.rows && st.tokens.rows[h].session in st.sessions.rows
  {
    var tok := st.tokens.rows[h];
    Minted0(Touched0(st, h), minted, tok.session, tok.user).(txs := map[0 := Issued(Rotation(tok.session, h, minted, st.now, st.now))])
  }

  lemma IssueEffect(st: State, h: Hash, minted: Hash)
    requires h in st.tokens.rows && minted !in st.tokens.rows && minted !in st.family
    requires SessionAlive(st, st.tokens.rows[h].session)
    ensures Enabled(Touched0(st, h), Issue(0, minted)) && Next(Touched0(st, h), Issue(0, minted)) == Issued0(st, h, minted)
  {
    var tok := st.tokens.rows[h];
    IssueMints(Touched0(st, h), h, tok, st.now, minted);
    MintEffect(Touched0(st, h), minted, tok.session, tok.user);
  }

  lemma IssueMints(st: State, h: Hash, tok: Token, at: int, minted: Hash)
    requires Alone(st, Touched(h, tok, at)) && minted !in st.family && SessionAlive(st, tok.session)
    ensures Enabled(st, Issue(0, minted))
    ensures Next(st, Issue(0, minted)) ==
      Mint(st, 0, minted, tok.session, tok.user).(txs := map[0 := Issued(Rotation(tok.session, h, minted, at, st.now))])
  {
  }

  lemma CommitEffect(st: State, h: Hash, minted: Hash)
    requires h in st.tokens.rows && st.tokens.rows[h].session in st.sessions.rows && Unlocked(st)
    ensures Enabled(Issued0(st, h, minted), Step.Commit(0))
    ensures var end := Next(Issued0(st, h, minted), Step.Commit(0)); Idle(end) && RotatedTables(st, end, h, minted)
  {
    var st3 := Issued0(st, h, minted);
    CommitSole(st3.tokens, 0);
    CommitSole(st3.sessions, 0);
    assert st3.txs - {0} == map[];
  }

  lemma AbortEffect(st: State, h: Hash)
    requires Unlocked(st) && h in st.tokens.rows && st.tokens.rows[h].session in st.sessions.rows
    ensures var st3 := Touched0(st, h).(txs := map[0 := Failing(st.tokens.rows[h].session)]);
      Idle(Next(st3, Step.Abort(0))) && SameTables(st, Next(st3, Step.Abort(0)))
  {
    var st3 := Touched0(st, h).(txs := map[0 := Failing(st.tokens.rows[h].session)]);
    AbortSole(st3.tokens, 0, st.tokens.rows);
    AbortSole(st3.sessions, 0, st.sessions.rows);
    assert st3.txs - {0} == map[];
  }

  lemma RefuseEffect(st: State, h: Hash, minted: Hash)
    requires h in st.tokens.rows && minted !in st.family && st.tokens.rows[h].session in st.sessions.rows
    requires !SessionAlive(st, st.tokens.rows[h].session)
    ensures Enabled(Touched0(st, h), Issue(0, minted))
    ensures Next(Touched0(st, h), Issue(0, minted)) == Touched0(st, h).(txs := map[0 := Failing(st.tokens.rows[h].session)])
  {
  }

  // ----- The statements of one undisturbed login -----

  function Opened0(st: State, sid: Sid, user: nat): State {
    st.(sessions := Table(st.sessions.rows[sid := Session(user, false, st.now + st.refreshTTL)], map[sid := Lock(0, None)]),
        logins := st.logins[sid := Login(user, st.now)], txs := map[0 := Opening(sid)])
  }

  lemma OpenEffect(st: State, sid: Sid, user: nat)
    requires Idle(st) && sid !in st.logins && sid !in st.sessions.rows
    ensures Enabled(st, Open(0, sid, user)) && Next(st, Open(0, sid, user)) == Opened0(st, sid, user)
  {
    assert Next(st, Open(0, sid, user)).sessions == Opened0(st, sid, user).sessions;
  }

  function LoggedIn0(st: State, sid: Sid, user: nat, minted: Hash): State {
    Minted0(Opened0(st, sid, user), minted, sid, user).(txs := map[0 := LoggedIn(sid)])
  }

  lemma FirstEffect(st: State, sid: Sid, user: nat, minted: Hash)
    requires Idle(st) && minted !in st.family && minted !in st.tokens.rows && st.refreshTTL > 0
    ensures var st1 := Opened0(st, sid, user);
      Enabled(st1, First(0, minted)) && Next(st1, First(0, minted)) == LoggedIn0(st, sid, user, minted)
  {
    FirstMints(Opened0(st, sid, user), sid, minted);
    MintEffect(Opened0(st, sid, user), minted, sid, user);
  }

  lemma FirstMints(st: State, sid: Sid, minted: Hash)
    requires Alone(st, Opening(sid)) && minted !in st.family && SessionAlive(st, sid)
    ensures Enabled(st, First(0, minted))
    ensures Next(st, First(0, minted)) == Mint(st, 0, minted, sid, st.sessions.rows[sid].user).(txs := map[0 := LoggedIn(sid)])
  {
  }

  lemma LoginEffect(st: State, sid: Sid, user: nat, minted: Hash)
    requires Idle(st)
    ensures Enabled(LoggedIn0(st, sid, user, minted), Step.Commit(0))
    ensures Idle(Next(LoggedIn0(st, sid, user, minted), Step.Commit(0)))
    ensures LoginTables(st, Next(LoggedIn0(st, sid, user, minted), Step.Commit(0)), sid, user, minted)
  {
    var st2 := LoggedIn0(st, sid, user, minted);
    CommitSole(st2.tokens, 0);
    CommitSole(st2.sessions, 0);
    assert st2.txs - {0} == map[];
  }

  lemma StillbornEffect(st: State, sid: Sid, user: nat, minted: Hash)
    requires Idle(st) && sid !in st.sessions.rows && minted !in st.family && st.refreshTTL <= 0
    ensures var st1 := Opened0(st, sid, user);
      && Enabled(st1, First(0, minted)) && Next(st1, First(0, minted)) == st1.(txs := map[0 := Failing(sid)])
      && Idle(Next(Next(st1, First(0, minted)), Step.Abort(0))) && SameTables(st, Next(Next(st1, First(0, minted)), Step.Abort(0)))
  {
    var st2 := Opened0(st, sid, user).(txs := map[0 := Failing(sid)]);
    AbortSole(st2.tokens, 0, st.tokens.rows);
    AbortSole(st2.sessions, 0, st.sessions.rows);
    assert st2.txs - {0} == map[];
  }

  // ----- The statements of one undisturbed containment -----

  function SessionKilled0(st: State, s: Sid): State
    requires s in st.sessions.rows
  {
    var row := st.sessions.rows[s];
    st.(sessions := Table(st.sessions.rows[s := row.(revoked := true)], map[s := Lock(0, Some(row))]), txs := map[0 := SessionKilled(s)])
  }

  lemma KillSessionEffect(st: State, s: Sid)
    requires Unlocked(st) && s in st.sessions.rows && Alone(st, Reuse(s, st.sessions.rows[s].user))
    ensures Enabled(st, KillSession(0)) && Next(st, KillSession(0)) == SessionKilled0(st, s)
  {
    assert Next(st, KillSession(0)).sessions == SessionKilled0(st, s).sessions;
  }

  function Contained0(st: State, s: Sid): State
    requires s in st.sessions.rows
  {
    var st1 := SessionKilled0(st, s);
    st1.(tokens := Write(st.tokens, 0, Revoked(st, InFamily(st, s))), txs := map[0 := Contained(s)])
  }

  lemma KillTokensEffect(st: State, s: Sid)
    requires Unlocked(st) && s in st.sessions.rows
    ensures Enabled(SessionKilled0(st, s), KillTokens(0)) && Next(SessionKilled0(st, s), KillTokens(0)) == Contained0(st, s)
  {
    assert InFamily(SessionKilled0(st, s), s) == InFamily(st, s);
    assert Revoked(SessionKilled0(st, s), InFamily(st, s)) == Revoked(st, InFamily(st, s));
  }

  lemma ContainEffect(st: State, h: Hash, s: Sid)
    requires Unlocked(st) && s in st.sessions.rows && h in st.tokens.rows && st.tokens.rows[h].session == s
    ensures Enabled(Contained0(st, s), Step.Commit(0))
    ensures var end := Next(Contained0(st, s), Step.Commit(0)); Idle(end) && KilledTables(st, end, h)
  {
    var st2 := Contained0(st, s);
    CommitSole(st2.tokens, 0);
    CommitSole(st2.sessions, 0);
    assert st2.txs - {0} == map[];
  }

  /** `start` and `trace` record how the present state was reached. */
  class AuthService {
    var st: State
    ghost var start: State
    ghost var trace: seq<Step>

    ghost predicate Valid()
      reads this
    {
      Initial(start) && Run(start, trace) == Some(st)
    }

    constructor (refreshTTL: int, now: int)
      ensures Valid() && Idle(st) && st.refreshTTL == refreshTTL && st.now == now
    {
      var empty := State(Table(map[], map[]), Table(map[], map[]), map[], now, refreshTTL, map[], map[], []);
      st, start, trace := empty, empty, [];
    }

    /** One statement, when it need not wait. */
    method Do(step: Step)
      requires Valid() && Enabled(st, step)
      modifies this
      ensures Valid() && st == Next(old(st), step)
    {
      RunOneMore(start, trace, st, step);
      st, trace := Next(st, step), trace + [step];
    }

    /** issueTokenPair for a new login; with a RefreshTTL that is not positive the new session is dead on arrival. */
    method Login(sid: Sid, user: nat, minted: Hash) returns (issued: bool)
      requires Valid() && Idle(st) && sid !in st.logins && minted !in st.family
      modifies this
      ensures Valid() && Idle(st)
      ensures issued <==> old(st.refreshTTL) > 0
      ensures issued ==> LoginTables(old(st), st, sid, user, minted)
      ensures !issued ==> SameTables(old(st), st)
    {
      Reachable(start, trace, st, minted, sid);
      OpenEffect(st, sid, user);
      Do(Open(0, sid, user));
      issued := SessionAlive(st, sid);
      if issued {
        FirstEffect(old(st), sid, user, minted);
        LoginEffect(old(st), sid, user, minted);
        Do(First(0, minted));
        Do(Step.Commit(0));
      } else {
        StillbornEffect(old(st), sid, user, minted);
        Do(First(0, minted));
        Do(Step.Abort(0));
      }
    }

    /** The winning half of Refresh, from the compare-and-set on. */
    method Rotate(h: Hash, minted: Hash) returns (issued: bool)
      requires Valid() && Unlocked(st) && minted !in st.family
      requires h in st.tokens.rows && !st.tokens.rows[h].revoked && Alone(st, Checked(h, st.tokens.rows[h], st.now))
      modifies this
      ensures Valid() && Idle(st)
      ensures issued <==> SessionAlive(old(st), old(st.tokens.rows)[h].session)
      ensures issued ==> RotatedTables(old(st), st, h, minted)
      ensures !issued ==> SameTables(old(st), st)
    {
      var tok := st.tokens.rows[h];
      Reachable(start, trace, st, h, tok.session);
      Reachable(start, trace, st, minted, tok.session);
      SwapEffect(st, h);
      TouchEffect(st, h);
      Do(Swap(0));
      Do(Touch(0));
      issued := SessionAlive(st, tok.session);
      if issued {
        IssueEffect(old(st), h, minted);
        CommitEffect(old(st), h, minted);
        Do(Issue(0, minted));
        Do(Step.Commit(0));
      } else {
        RefuseEffect(old(st), h, minted);
        AbortEffect(old(st), h);
        Do(Issue(0, minted));
        Do(Step.Abort(0));
      }
    }

    /** handleTokenReuse, with its audit event admitted. */
    method Contain(h: Hash)
      requires Valid() && Unlocked(st)
      requires h in st.tokens.rows && Alone(st, Reuse(st.tokens.rows[h].session, st.tokens.rows[h].user))
      modifies this
      ensures Valid() && Idle(st) && KilledTables(old(st), st, h)
    {
      var s := st.tokens.rows[h].session;
      Reachable(start, trace, st, h, s);
      KillSessionEffect(st, s);
      KillTokensEffect(st, s);
      ContainEffect(st, h, s);
      Do(KillSession(0));
      Do(KillTokens(0));
      Do(Step.Commit(0));
    }

    /** The reads and checks at the start of Refresh. */
    method Examine(h: Hash, active: bool)
      requires Valid() && Idle(st) && h in st.tokens.rows
      modifies this
      ensures Valid() && st == old(st).(txs := map[0 := Verdict(old(st), h, active)])
    {
      LoadEffect(st, h);
      Do(Load(0, h));
      CheckEffect(st, h, active);
      Do(Check(0, active));
    }

    /** Refresh: rotate, or treat reuse as theft, or refuse and leave everything as it was. */
    method Refresh(h: Hash, minted: Hash, active: bool) returns (issued: bool)
      requires Valid() && Idle(st) && minted !in st.family
      modifies this
      ensures Valid() && Idle(st)
      ensures issued <==> Refreshable(old(st), h, active)
      ensures issued ==> RotatedTables(old(st), st, h, minted)
      ensures ReuseSignal(old(st), h, active) ==> KilledTables(old(st), st, h)
      ensures !issued && !ReuseSignal(old(st), h, active) ==> SameTables(old(st), st)
    {
      issued := false;
      if h !in st.tokens.rows {
        return;
      }
      var verdict := Verdict(st, h, active);
      VerdictHere(h, active);
      Examine(h, active);
      if verdict.Failing? {
        Fail();
      } else if verdict.Reuse? {
        Contain(h);
      } else {
        issued := Rotate(h, minted);
      }
    }

    /** The verdict on a token of a reachable state. */
    lemma VerdictHere(h: Hash, active: bool)
      requires Valid() && h in st.tokens.rows
      ensures Verdict(st, h, active).Reuse? <==> ReuseSignal(st, h, active)
      ensures Verdict(st, h, active).Checked? ==> (Refreshable(st, h, active) <==> SessionAlive(st, st.tokens.rows[h].session))
      ensures !Verdict(st, h, active).Checked? ==> !Refreshable(st, h, active)
      ensures Verdict(st, h, active).Reuse? ==> Verdict(st, h, active) == Reuse(st.tokens.rows[h].session, st.tokens.rows[h].user)
      ensures Verdict(st, h, active).Checked? ==> Verdict(st, h, active) == Checked(h, st.tokens.rows[h], st.now) && !st.tokens.rows[h].revoked
      ensures Verdict(st, h, active).Reuse? || Verdict(st, h, active).Checked? || Verdict(st, h, active).Failing?
    {
      Reachable(start, trace, st, h, st.tokens.rows[h].session);
      VerdictMeaning(st, h, active);
    }

    /** An unaudited denial rolls back. */
    method Fail()
      requires Valid() && Unlocked(st) && st.txs.Keys == {0}
      modifies this
      ensures Valid() && Idle(st) && SameTables(old(st), st)
    {
      AbortSole(st.tokens, 0, st.tokens.rows);
      AbortSole(st.sessions, 0, st.sessions.rows);
      Do(Step.Abort(0));
    }
  }
}
