/** Every statement of every transaction keeps the family invariant. */
module FamilySteps {
  import opened Common
  import opened RowLocks
  import opened TokenFamily
  import opened FamilyInvariant

  // ----- What a step may rely on about its own transaction -----

  predicate HashOK(st: State, h: Hash) {
    TokenOK(st, h) && LockOK(st, h)
  }

  predicate SidOK(st: State, s: Sid) {
    SessionOK(st, s) && SessionLockOK(st, s)
  }

  predicate ActorOK(st: State, t: nat) {
    && TxOK(st, t)
    && (t in st.txs ==>
          match st.txs[t]
          case Opening(s) => SidOK(st, s)
          case Checked(h, tok, _) => HashOK(st, h)
          case Won(_, tok, _) => SidOK(st, tok.session)
          case Touched(_, tok, _) => SidOK(st, tok.session)
          case Reuse(s, _) => SidOK(st, s)
          case _ => true)
  }

  predicate StepOK(st: State, step: Step) {
    match step
    case Open(_, sid, _) => SidOK(st, sid)
    case First(t, h) => ActorOK(st, t) && HashOK(st, h)
    case Load(t, h) => HashOK(st, h) && (Committed(st.tokens, h).Some? ==> SidOK(st, Committed(st.tokens, h).value.session))
    case Check(t, _) => ActorOK(st, t)
    case Swap(t) => ActorOK(st, t)
    case Touch(t) => ActorOK(st, t)
    case Issue(t, h) => ActorOK(st, t) && HashOK(st, h)
    case KillSession(t) => ActorOK(st, t)
    case KillTokens(t) => ActorOK(st, t)
    case _ => true
  }

  lemma StepIsOK(st: State, step: Step)
    requires RowsOK(st) && TxsOK(st)
    ensures StepOK(st, step)
  {
  }

  // ----- Rows -----

  /** The steps that insert refresh tokens. */
  predicate Mints(step: Step) {
    step.First? || step.Issue?
  }

  /** The steps that update or delete refresh tokens. */
  predicate Retires(step: Step) {
    step.Swap? || step.KillTokens? || step.RevokeTokens? || step.Purge?
  }

  /** The steps that write session rows. */
  predicate Stamps(step: Step) {
    step.Open? || step.Touch? || step.KillSession? || step.RevokeSessions?
  }

  predicate Ends(step: Step) {
    step.Commit? || step.Abort?
  }

  lemma FirstToken(st: State, t: nat, minted: Hash, h: Hash)
    requires HashOK(st, h) && StepOK(st, First(t, minted)) && Enabled(st, First(t, minted))
    ensures TokenOK(Next(st, First(t, minted)), h) && LockOK(Next(st, First(t, minted)), h)
  {
  }

  lemma NextToken(st: State, t: nat, minted: Hash, h: Hash)
    requires HashOK(st, h) && StepOK(st, Issue(t, minted)) && Enabled(st, Issue(t, minted))
    ensures TokenOK(Next(st, Issue(t, minted)), h) && LockOK(Next(st, Issue(t, minted)), h)
  {
    var s, user := st.txs[t].tok.session, st.txs[t].tok.user;
    if SessionAlive(st, s) { MintedToken(st, t, minted, s, user, h); }
  }

  lemma MintedToken(st: State, t: nat, minted: Hash, s: Sid, user: nat, h: Hash)
    requires HashOK(st, h) && HashOK(st, minted) && minted !in st.family && t in st.txs && Within(st.txs[t], s)
    requires s in st.logins && st.logins[s].user == user && Current(st.sessions, s).Some? && Committed(st.sessions, s).Some?
    ensures HashOK(Mint(st, t, minted, s, user), h)
  {
  }

  lemma SwapToken(st: State, t: nat, h: Hash)
    requires HashOK(st, h) && StepOK(st, Swap(t)) && Enabled(st, Swap(t))
    ensures HashOK(Next(st, Swap(t)), h)
  {
  }

  lemma KillToken(st: State, t: nat, h: Hash)
    requires HashOK(st, h) && StepOK(st, KillTokens(t)) && Enabled(st, KillTokens(t))
    ensures HashOK(Next(st, KillTokens(t)), h)
  {
  }

  lemma RetireToken(st: State, step: Step, h: Hash)
    requires HashOK(st, h) && Enabled(st, step) && (step.RevokeTokens? || step.Purge?)
    ensures HashOK(Next(st, step), h)
  {
  }

  lemma StampToken(st: State, step: Step, h: Hash)
    requires HashOK(st, h) && StepOK(st, step) && Enabled(st, step) && Stamps(step)
    ensures HashOK(Next(st, step), h)
  {
    StepGrows(st, step);
    StampLeavesTokens(st, step);
    if Current(st.tokens, h).Some? { StampHome(st, step, h, Current(st.tokens, h).value.session); }
    if Committed(st.tokens, h).Some? { StampHome(st, step, h, Committed(st.tokens, h).value.session); }
  }

  lemma StampLeavesTokens(st: State, step: Step)
    requires Enabled(st, step) && Stamps(step)
    ensures Next(st, step).tokens == st.tokens && Next(st, step).family == st.family
    ensures forall s | s in st.logins :: s in Next(st, step).logins && Next(st, step).logins[s] == st.logins[s]
    ensures forall t | t in st.txs :: t in Next(st, step).txs && (forall s :: Within(st.txs[t], s) ==> Within(Next(st, step).txs[t], s))
  {
  }

  lemma StampHome(st: State, step: Step, h: Hash, s: Sid)
    requires Enabled(st, step) && Stamps(step)
    ensures Homed(st, h, s) ==> Homed(Next(st, step), h, s)
    ensures Committed(st.sessions, s).Some? ==> Committed(Next(st, step).sessions, s).Some?
  {
  }

  lemma OtherToken(st: State, step: Step, h: Hash)
    requires HashOK(st, h) && StepOK(st, step) && Enabled(st, step)
    requires !Mints(step) && !Retires(step) && !Stamps(step) && !Ends(step)
    ensures HashOK(Next(st, step), h)
  {
    SameTokens(st, step);
    SameSessions(st, step);
    if h in st.tokens.locks { PhaseStays(st, step, st.tokens.locks[h].tx, st.family[h]); }
  }

  /** A transaction stays within its family from statement to statement. */
  lemma PhaseStays(st: State, step: Step, u: nat, s: Sid)
    requires Enabled(st, step) && !Ends(step) && u in st.txs && Within(st.txs[u], s)
    ensures u in Next(st, step).txs && Within(Next(st, step).txs[u], s)
  {
  }

  lemma SameSessions(st: State, step: Step)
    requires Enabled(st, step) && !Stamps(step) && !Ends(step)
    ensures Next(st, step).sessions == st.sessions && Next(st, step).logins == st.logins && Next(st, step).refreshTTL == st.refreshTTL
  {
  }

  lemma StepToken(st: State, step: Step, h: Hash)
    requires HashOK(st, h) && StepOK(st, step) && Enabled(st, step) && !Ends(step)
    ensures TokenOK(Next(st, step), h) && LockOK(Next(st, step), h)
  {
    if step.First? {
      FirstToken(st, step.t, step.minted, h);
    } else if step.Issue? {
      NextToken(st, step.t, step.minted, h);
    } else if step.Swap? {
      SwapToken(st, step.t, h);
    } else if step.KillTokens? {
      KillToken(st, step.t, h);
    } else if Retires(step) {
      RetireToken(st, step, h);
    } else if Stamps(step) {
      StampToken(st, step, h);
    } else {
      OtherToken(st, step, h);
    }
  }

  lemma OpenSession(st: State, t: nat, sid: Sid, user: nat, s: Sid)
    requires SidOK(st, s) && SidOK(st, sid) && Enabled(st, Open(t, sid, user))
    ensures SidOK(Next(st, Open(t, sid, user)), s)
  {
  }

  lemma BulkSession(st: State, t: nat, sids: set<Sid>, s: Sid)
    requires SidOK(st, s) && Enabled(st, RevokeSessions(t, sids))
    ensures SidOK(Next(st, RevokeSessions(t, sids)), s)
  {
  }

  lemma TouchSession(st: State, t: nat, s: Sid)
    requires SidOK(st, s) && StepOK(st, Touch(t)) && Enabled(st, Touch(t))
    ensures SidOK(Next(st, Touch(t)), s)
  {
  }

  lemma KilledSession(st: State, t: nat, s: Sid)
    requires SidOK(st, s) && StepOK(st, KillSession(t)) && Enabled(st, KillSession(t))
    ensures SidOK(Next(st, KillSession(t)), s)
  {
  }

  lemma OtherSession(st: State, step: Step, s: Sid)
    requires SidOK(st, s) && Enabled(st, step) && !Ends(step) && !Stamps(step)
    ensures SidOK(Next(st, step), s)
  {
    SameSessions(st, step);
    if s in st.sessions.locks { PhaseStays(st, step, st.sessions.locks[s].tx, s); }
  }

  lemma StepSession(st: State, step: Step, s: Sid)
    requires SidOK(st, s) && StepOK(st, step) && Enabled(st, step) && !Ends(step)
    ensures SidOK(Next(st, step), s)
  {
    match step
    case Open(t, sid, user) => OpenSession(st, t, sid, user, s);
    case RevokeSessions(t, sids) => BulkSession(st, t, sids, s);
    case Touch(t) => TouchSession(st, t, s);
    case KillSession(t) => KilledSession(st, t, s);
    case _ => OtherSession(st, step, s);
  }

  lemma EndToken(st: State, t: nat, h: Hash)
    requires RowsOK(st) && t in st.txs
    ensures MayCommit(st.txs[t]) ==> TokenOK(Next(st, Step.Commit(t)), h)
    ensures TokenOK(Next(st, Step.Abort(t)), h)
  {
    assert TokenOK(st, h);
    CommitViews(st.tokens, t, h);
    AbortViews(st.tokens, t, h);
    if Current(st.tokens, h).Some? {
      assert SessionOK(st, Current(st.tokens, h).value.session);
      EndHome(st, t, h, Current(st.tokens, h).value.session);
    }
    if Committed(st.tokens, h).Some? {
      assert SessionOK(st, Committed(st.tokens, h).value.session);
      EndHome(st, t, h, Committed(st.tokens, h).value.session);
    }
  }

  lemma EndHome(st: State, t: nat, h: Hash, s: Sid)
    requires SessionOK(st, s)
    ensures Committed(st.sessions, s).Some? ==>
      && Committed(RowLocks.Commit(st.sessions, t), s).Some? && Current(RowLocks.Commit(st.sessions, t), s).Some?
      && Committed(RowLocks.Abort(st.sessions, t), s).Some? && Current(RowLocks.Abort(st.sessions, t), s).Some?
    ensures Homed(st, h, s) && LockedBy(st.tokens, h, t) ==> Committed(RowLocks.Commit(st.sessions, t), s).Some?
    ensures Current(st.sessions, s) == Current(RowLocks.Commit(st.sessions, t), s)
    ensures !LockedBy(st.sessions, s, t) ==> Current(RowLocks.Abort(st.sessions, t), s) == Current(st.sessions, s)
    ensures forall u: nat | u != t && LockedBy(st.sessions, s, u) ::
      LockedBy(RowLocks.Commit(st.sessions, t), s, u) && LockedBy(RowLocks.Abort(st.sessions, t), s, u)
  {
    CommitViews(st.sessions, t, s);
    AbortViews(st.sessions, t, s);
  }

  lemma EndSession(st: State, t: nat, s: Sid)
    requires SessionOK(st, s) && t in st.txs
    ensures MayCommit(st.txs[t]) ==> SessionOK(Next(st, Step.Commit(t)), s)
    ensures SessionOK(Next(st, Step.Abort(t)), s)
  {
    CommitViews(st.sessions, t, s);
    AbortViews(st.sessions, t, s);
  }

  lemma StepRows(st: State, step: Step)
    requires RowsOK(st) && TxsOK(st) && Enabled(st, step)
    ensures RowsOK(Next(st, step))
  {
    StepIsOK(st, step);
    forall h ensures TokenOK(Next(st, step), h) { StepTokenRow(st, step, h); }
    forall s ensures SessionOK(Next(st, step), s) { StepSessionRow(st, step, s); }
  }

  lemma StepTokenRow(st: State, step: Step, h: Hash)
    requires RowsOK(st) && LockOK(st, h) && StepOK(st, step) && Enabled(st, step)
    ensures TokenOK(Next(st, step), h)
  {
    assert TokenOK(st, h);
    if Ends(step) { EndToken(st, step.t, h); } else { StepToken(st, step, h); }
  }

  lemma StepSessionRow(st: State, step: Step, s: Sid)
    requires SidOK(st, s) && StepOK(st, step) && Enabled(st, step)
    ensures SessionOK(Next(st, step), s)
  {
    if Ends(step) { EndSession(st, step.t, s); } else { StepSession(st, step, s); }
  }

  // ----- Families -----

  predicate ClaimKept(st: State, st': State, s: Sid, c: Claimant) {
    Claims(st', s, c) ==> Claims(st, s, c)
  }

  predicate OwnerKept(st: State, st': State, s: Sid, c: Claimant, t: nat) {
    Claims(st', s, c) && Owns(st', c, t) ==> Owns(st, c, t)
  }

  predicate LiveKept(st: State, st': State, s: Sid, h: Hash) {
    CommittedLive(st', s, h) ==> CommittedLive(st, s, h)
  }

  predicate LockKept(st: State, st': State, h: Hash, t: nat) {
    LockedBy(st.tokens, h, t) ==> LockedBy(st'.tokens, h, t)
  }

  /** Family `s` gains no claimant and no committed token, and no lock is released. */
  ghost predicate Calm(st: State, st': State, s: Sid) {
    && (forall c :: ClaimKept(st, st', s, c))
    && (forall c, t :: OwnerKept(st, st', s, c, t))
    && (forall h :: LiveKept(st, st', s, h))
    && (forall h, t :: LockKept(st, st', h, t))
  }

  lemma CalmFamily(st: State, st': State, s: Sid)
    requires FamilyOK(st, s) && Calm(st, st', s)
    ensures FamilyOK(st', s)
  {
    forall c, d ensures Agree(st', s, c, d) {
      assert Agree(st, s, c, d) && ClaimKept(st, st', s, c) && ClaimKept(st, st', s, d);
    }
    forall j, k ensures AgreeLive(st', s, j, k) {
      assert AgreeLive(st, s, j, k) && LiveKept(st, st', s, j) && LiveKept(st, st', s, k);
    }
    forall c, u, k ensures Guards(st', s, c, u, k) {
      assert Guards(st, s, c, u, k) && ClaimKept(st, st', s, c) && OwnerKept(st, st', s, c, u);
      assert LiveKept(st, st', s, k) && LockKept(st, st', k, u);
    }
  }

  lemma CalmContained(st: State, st': State, s: Sid, t: nat)
    requires ContainedBy(st, s, t) && Calm(st, st', s)
    ensures ContainedBy(st', s, t)
  {
    forall c ensures Quiet(st', s, c) {
      assert Quiet(st, s, c) && ClaimKept(st, st', s, c);
    }
    forall h ensures Held(st', s, h, t) {
      assert Held(st, s, h, t) && LiveKept(st, st', s, h) && LockKept(st, st', h, t);
    }
  }

  /** The family in which a step can hand the claim over; every other family is left calm. */
  predicate Acts(st: State, step: Step, s: Sid) {
    match step
    case Open(_, sid, _) => sid == s
    case First(t, _) => t in st.txs && st.txs[t].Opening? && st.txs[t].sid == s
    case Swap(t) => t in st.txs && st.txs[t].Checked? && st.txs[t].tok.session == s
    case Issue(t, _) => t in st.txs && st.txs[t].Touched? && st.txs[t].tok.session == s
    case Commit(_) => true
    case Abort(_) => true
    case _ => false
  }

  lemma StepCalmTx(st: State, step: Step, s: Sid, u: nat)
    requires Enabled(st, step) && !Acts(st, step, s)
    ensures ClaimKept(st, Next(st, step), s, Tx(u))
  {
  }

  lemma StepCalmToken(st: State, step: Step, s: Sid, h: Hash)
    requires HashOK(st, h) && Enabled(st, step) && !Acts(st, step, s)
    ensures ClaimKept(st, Next(st, step), s, Tok(h)) && LiveKept(st, Next(st, step), s, h)
    ensures forall t :: OwnerKept(st, Next(st, step), s, Tok(h), t) && LockKept(st, Next(st, step), h, t)
  {
    if Mints(step) { MintCalm(st, step, s, h); } else { RestCalm(st, step, s, h); }
  }

  lemma MintCalm(st: State, step: Step, s: Sid, h: Hash)
    requires HashOK(st, h) && Enabled(st, step) && !Acts(st, step, s) && Mints(step)
    ensures ClaimKept(st, Next(st, step), s, Tok(h)) && LiveKept(st, Next(st, step), s, h)
    ensures forall t :: OwnerKept(st, Next(st, step), s, Tok(h), t) && LockKept(st, Next(st, step), h, t)
  {
  }

  /** Revoking or purging rows takes claims away and gives none. */
  lemma RetireCalm(st: State, step: Step, s: Sid, h: Hash)
    requires HashOK(st, h) && Enabled(st, step) && Retires(step)
    ensures TokenFades(st, Next(st, step), h)
  {
    match step
    case Swap(t) => SwapFades(st, t, h);
    case KillTokens(t) => KillFades(st, t, h);
    case RevokeTokens(t, hashes) => RevokeFades(st, t, hashes, h);
    case Purge(cutoff, hashes) => PurgeFades(st, cutoff, hashes, h);
  }

  /** The row is as before, or revoked, or gone; its committed image may be gone too; locks stay. */
  ghost predicate TokenFades(st: State, st': State, h: Hash) {
    && (Current(st'.tokens, h) == Current(st.tokens, h) || Current(st'.tokens, h).None? || Current(st'.tokens, h).value.revoked)
    && (Committed(st'.tokens, h) == Committed(st.tokens, h) || Committed(st'.tokens, h).None?)
    && (forall t: nat :: LockedBy(st.tokens, h, t) ==> LockedBy(st'.tokens, h, t))
    && (forall t: nat :: LockedBy(st'.tokens, h, t) && !LockedBy(st.tokens, h, t) ==>
          Current(st'.tokens, h).Some? && Current(st'.tokens, h).value.revoked)
  }

  lemma SwapFades(st: State, t: nat, h: Hash)
    requires Enabled(st, Swap(t))
    ensures TokenFades(st, Next(st, Swap(t)), h)
  {
  }

  lemma KillFades(st: State, t: nat, h: Hash)
    requires Enabled(st, KillTokens(t))
    ensures TokenFades(st, Next(st, KillTokens(t)), h)
  {
  }

  lemma RevokeFades(st: State, t: nat, hashes: set<Hash>, h: Hash)
    requires Enabled(st, RevokeTokens(t, hashes))
    ensures TokenFades(st, Next(st, RevokeTokens(t, hashes)), h)
  {
  }

  lemma PurgeFades(st: State, cutoff: int, hashes: set<Hash>, h: Hash)
    ensures TokenFades(st, Next(st, Purge(cutoff, hashes)), h)
  {
  }

  /** Every other statement leaves the refresh tokens alone. */
  lemma SameTokens(st: State, step: Step)
    requires Enabled(st, step) && !Mints(step) && !Retires(step) && !Ends(step)
    ensures Next(st, step).tokens == st.tokens && Next(st, step).family == st.family
  {
  }

  lemma RestCalm(st: State, step: Step, s: Sid, h: Hash)
    requires HashOK(st, h) && Enabled(st, step) && !Acts(st, step, s) && !Mints(step)
    ensures ClaimKept(st, Next(st, step), s, Tok(h)) && LiveKept(st, Next(st, step), s, h)
    ensures forall t :: OwnerKept(st, Next(st, step), s, Tok(h), t) && LockKept(st, Next(st, step), h, t)
  {
    if Retires(step) { RetireCalm(st, step, s, h); } else { SameTokens(st, step); }
  }

  lemma StepCalm(st: State, step: Step, s: Sid)
    requires Inv(st) && Enabled(st, step) && !Acts(st, step, s)
    ensures Calm(st, Next(st, step), s)
  {
    var st' := Next(st, step);
    forall c ensures ClaimKept(st, st', s, c) {
      match c
      case Tok(h) =>
        assert HashOK(st, h);
        StepCalmToken(st, step, s, h);
      case Tx(u) => StepCalmTx(st, step, s, u);
    }
    forall c, t ensures OwnerKept(st, st', s, c, t) {
      if c.Tok? {
        assert HashOK(st, c.hash);
        StepCalmToken(st, step, s, c.hash);
      }
    }
    forall h, t ensures LiveKept(st, st', s, h) && LockKept(st, st', h, t) {
      assert HashOK(st, h);
      StepCalmToken(st, step, s, h);
    }
  }

  lemma SwapFamily(st: State, t: nat, s: Sid)
    requires FamilyOK(st, s) && StepOK(st, Swap(t)) && Enabled(st, Swap(t))
    ensures FamilyOK(Next(st, Swap(t)), s)
  {
    var st' := Next(st, Swap(t));
    var h := st.txs[t].hash;
    forall c, d ensures Agree(st', s, c, d) {
      assert Agree(st, s, c, d) && Agree(st, s, c, Tok(h)) && Agree(st, s, Tok(h), d);
      SwapAgree(st, t, s, c, d);
    }
    forall j, k ensures AgreeLive(st', s, j, k) {
      assert AgreeLive(st, s, j, k);
      SwapLive(st, t, s, j);
      SwapLive(st, t, s, k);
    }
    forall c, u, k ensures Guards(st', s, c, u, k) {
      assert Guards(st, s, c, u, k) && Agree(st, s, c, Tok(h)) && AgreeLive(st, s, h, k);
      SwapGuards(st, t, s, c, u, k);
    }
  }

  /** The claim of the token passes to the winner of the compare-and-set, who is then the only claimant. */
  lemma SwapHandsOver(st: State, t: nat, c: Claimant)
    requires Inv(st) && Enabled(st, Swap(t)) && Next(st, Swap(t)).txs[t].Won?
    ensures var s, st' := st.txs[t].tok.session, Next(st, Swap(t));
      && Claims(st, s, Tok(st.txs[t].hash)) && !Claims(st', s, Tok(st.txs[t].hash))
      && (Claims(st', s, c) <==> c == Tx(t))
  {
    var s, h, st' := st.txs[t].tok.session, st.txs[t].hash, Next(st, Swap(t));
    assert TxOK(st, t) && TokenOK(st, h);
    StepIsOK(st, Swap(t));
    assert FamilyOK(st, s);
    SwapFamily(st, t, s);
    assert Agree(st', s, c, Tx(t));
  }

  lemma SwapAgree(st: State, t: nat, s: Sid, c: Claimant, d: Claimant)
    requires StepOK(st, Swap(t)) && Enabled(st, Swap(t))
    requires Agree(st, s, c, d) && Agree(st, s, c, Tok(st.txs[t].hash)) && Agree(st, s, Tok(st.txs[t].hash), d)
    ensures Agree(Next(st, Swap(t)), s, c, d)
  {
  }

  lemma SwapLive(st: State, t: nat, s: Sid, h: Hash)
    requires Enabled(st, Swap(t))
    ensures CommittedLive(Next(st, Swap(t)), s, h) ==> CommittedLive(st, s, h)
  {
  }

  /** The winner's claim rests on the token it took, the only committed one of the family. */
  lemma SwapGuards(st: State, t: nat, s: Sid, c: Claimant, u: nat, k: Hash)
    requires StepOK(st, Swap(t)) && Enabled(st, Swap(t)) && Guards(st, s, c, u, k)
    requires Agree(st, s, c, Tok(st.txs[t].hash)) && AgreeLive(st, s, st.txs[t].hash, k)
    ensures Guards(Next(st, Swap(t)), s, c, u, k)
  {
  }

  predicate FreshClaims(st: State, sid: Sid, c: Claimant) {
    !Claims(st, sid, c)
  }

  lemma FreshSession(st: State, sid: Sid, c: Claimant)
    requires Inv(st) && sid !in st.logins
    ensures FreshClaims(st, sid, c)
  {
    match c
    case Tok(h) => assert TokenOK(st, h);
    case Tx(t) => assert TxOK(st, t);
  }

  lemma OpenFamily(st: State, t: nat, sid: Sid, user: nat, s: Sid)
    requires Inv(st) && Enabled(st, Open(t, sid, user))
    ensures FamilyOK(Next(st, Open(t, sid, user)), s)
  {
    var st' := Next(st, Open(t, sid, user));
    assert FamilyOK(st, s);
    forall c ensures FreshClaims(st, sid, c) { FreshSession(st, sid, c); }
    forall c, d ensures Agree(st', s, c, d) {
      assert Agree(st, s, c, d) && FreshClaims(st, sid, c) && FreshClaims(st, sid, d);
    }
    forall j, k ensures AgreeLive(st', s, j, k) {
      assert AgreeLive(st, s, j, k);
    }
    forall c, u, k ensures Guards(st', s, c, u, k) {
      assert Guards(st, s, c, u, k) && TokenOK(st, k);
    }
  }

  /** The claim passes from transaction `t` to the token it mints. */
  lemma MintFamily(st: State, step: Step, s: Sid)
    requires FamilyOK(st, s) && StepOK(st, step) && Enabled(st, step) && Mints(step)
    ensures FamilyOK(Next(st, step), s)
  {
    var st' := Next(st, step);
    forall c ensures MintClaim(st, st', step, s, c) { MintClaims(st, step, s, c); }
    forall h ensures MintLive(st, st', step, s, h) { MintLives(st, step, s, h); }
    forall c, d ensures Agree(st', s, c, d) {
      assert Agree(st, s, c, d) && Agree(st, s, c, Tx(step.t)) && Agree(st, s, Tx(step.t), d);
      assert MintClaim(st, st', step, s, c) && MintClaim(st, st', step, s, d);
    }
    forall j, k ensures AgreeLive(st', s, j, k) {
      assert AgreeLive(st, s, j, k) && MintLive(st, st', step, s, j) && MintLive(st, st', step, s, k);
    }
    forall c, u, k ensures Guards(st', s, c, u, k) {
      assert Guards(st, s, c, u, k) && Guards(st, s, Tx(step.t), step.t, k);
      assert MintClaim(st, st', step, s, c) && MintLive(st, st', step, s, k);
    }
  }

  ghost predicate MintClaim(st: State, st': State, step: Step, s: Sid, c: Claimant)
    requires Mints(step)
  {
    Claims(st', s, c) ==>
      if c == Tok(step.minted) then Claims(st, s, Tx(step.t)) && (forall u :: Owns(st', c, u) ==> u == step.t)
      else c != Tx(step.t) && Claims(st, s, c) && (forall u :: Owns(st', c, u) ==> Owns(st, c, u))
  }

  ghost predicate MintLive(st: State, st': State, step: Step, s: Sid, h: Hash) {
    CommittedLive(st', s, h) ==> CommittedLive(st, s, h) && (forall u: nat :: LockedBy(st.tokens, h, u) ==> LockedBy(st'.tokens, h, u))
  }

  lemma MintClaims(st: State, step: Step, s: Sid, c: Claimant)
    requires StepOK(st, step) && Enabled(st, step) && Mints(step)
    ensures MintClaim(st, Next(st, step), step, s, c)
  {
  }

  lemma MintLives(st: State, step: Step, s: Sid, h: Hash)
    requires StepOK(st, step) && Enabled(st, step) && Mints(step)
    ensures MintLive(st, Next(st, step), step, s, h)
  {
  }

  lemma CommitFamily(st: State, t: nat, s: Sid)
    requires Inv(st) && Enabled(st, Step.Commit(t))
    ensures FamilyOK(Next(st, Step.Commit(t)), s)
  {
    var st' := Next(st, Step.Commit(t));
    assert FamilyOK(st, s);
    forall c, d ensures Agree(st', s, c, d) {
      assert Agree(st, s, c, d);
    }
    forall j, k ensures AgreeLive(st', s, j, k) {
      assert AgreeLive(st, s, j, k) && Agree(st, s, Tok(j), Tok(k));
      assert Guards(st, s, Tok(j), t, k) && Guards(st, s, Tok(k), t, j);
    }
    forall c, u, k ensures Guards(st', s, c, u, k) {
      assert Guards(st, s, c, u, k) && Agree(st, s, c, Tok(k));
    }
  }

  lemma AbortFamily(st: State, t: nat, s: Sid)
    requires Inv(st) && Enabled(st, Step.Abort(t))
    ensures FamilyOK(Next(st, Step.Abort(t)), s)
  {
    var st' := Next(st, Step.Abort(t));
    assert FamilyOK(st, s);
    forall h ensures AbortedToken(st, st', t, h) {
      AbortViews(st.tokens, t, h);
    }
    forall c, d ensures Agree(st', s, c, d) {
      AbortClaim(st, st', t, s, c, d);
    }
    forall j, k ensures AgreeLive(st', s, j, k) {
      assert AgreeLive(st, s, j, k) && AbortedToken(st, st', t, j) && AbortedToken(st, st', t, k);
    }
    forall c, u, k ensures Guards(st', s, c, u, k) {
      assert Guards(st, s, c, u, k) && AbortedToken(st, st', t, k);
      if c.Tok? { assert AbortedToken(st, st', t, c.hash); }
    }
  }

  /** A rollback gives the claim back to the committed token it had taken, and to nobody else. */
  lemma AbortGivesBack(st: State, t: nat, s: Sid, h: Hash, c: Claimant)
    requires Inv(st) && Enabled(st, Step.Abort(t)) && LockedBy(st.tokens, h, t) && CommittedLive(st, s, h)
    ensures var st' := Next(st, Step.Abort(t));
      CommittedLive(st', s, h) && (Claims(st', s, c) <==> c == Tok(h))
  {
    var st' := Next(st, Step.Abort(t));
    AbortViews(st.tokens, t, h);
    AbortFamily(st, t, s);
    assert Claims(st', s, Tok(h)) && Agree(st', s, c, Tok(h));
  }

  ghost predicate AbortedToken(st: State, st': State, t: nat, h: Hash) {
    && Current(st'.tokens, h) == (if LockedBy(st.tokens, h, t) then Committed(st.tokens, h) else Current(st.tokens, h))
    && Committed(st'.tokens, h) == Committed(st.tokens, h)
    && (forall u: nat :: LockedBy(st'.tokens, h, u) <==> LockedBy(st.tokens, h, u) && u != t)
  }

  /** A rolled-back claim gives way to the token it had taken; nobody else can have claimed meanwhile. */
  lemma AbortClaim(st: State, st': State, t: nat, s: Sid, c: Claimant, d: Claimant)
    requires FamilyOK(st, s) && t in st.txs && st' == Next(st, Step.Abort(t))
    requires forall h :: AbortedToken(st, st', t, h)
    ensures Agree(st', s, c, d)
  {
    assert Agree(st, s, c, d);
    if Claims(st', s, c) && Claims(st', s, d) {
      if c.Tok? { assert AbortedToken(st, st', t, c.hash); }
      if d.Tok? { assert AbortedToken(st, st', t, d.hash); }
      if c.Tok? && d.Tok? { assert AgreeLive(st, s, c.hash, d.hash); }
      if c.Tok? && LockedBy(st.tokens, c.hash, t) {
        if !(d.Tok? && LockedBy(st.tokens, d.hash, t)) { AbortMeets(st, t, s, c.hash, d); }
      } else if d.Tok? && LockedBy(st.tokens, d.hash, t) {
        AbortMeets(st, t, s, d.hash, c);
      }
    }
  }

  lemma AbortMeets(st: State, t: nat, s: Sid, h: Hash, d: Claimant)
    requires FamilyOK(st, s) && LockedBy(st.tokens, h, t) && CommittedLive(st, s, h)
    requires Claims(st, s, d) && !Owns(st, d, t)
    ensures d == Tok(h)
  {
    match d
    case Tok(k) =>
      assert AgreeLive(st, s, h, k);
      if k in st.tokens.locks { ClaimGuards(st, s, d, st.tokens.locks[k].tx, h); }
    case Tx(u) => ClaimGuards(st, s, d, u, h);
  }

  lemma ClaimGuards(st: State, s: Sid, c: Claimant, t: nat, h: Hash)
    requires FamilyOK(st, s) && Claims(st, s, c) && Owns(st, c, t) && CommittedLive(st, s, h)
    ensures LockedBy(st.tokens, h, t)
  {
    assert Guards(st, s, c, t, h);
  }

  lemma StepFamilies(st: State, step: Step)
    requires Inv(st) && Enabled(st, step)
    ensures FamiliesOK(Next(st, step))
  {
    StepIsOK(st, step);
    forall s ensures FamilyOK(Next(st, step), s) {
      if !Acts(st, step, s) {
        StepCalm(st, step, s);
        CalmFamily(st, Next(st, step), s);
      } else {
        match step
        case Open(t, sid, user) => OpenFamily(st, t, sid, user, s);
        case First(t, h) => MintFamily(st, step, s);
        case Issue(t, h) => MintFamily(st, step, s);
        case Swap(t) => SwapFamily(st, t, s);
        case Commit(t) => CommitFamily(st, t, s);
        case Abort(t) => AbortFamily(st, t, s);
      }
    }
  }

  // ----- Transactions and their locks -----

  /** Ids stay known, and the clock does not go back. */
  predicate Grows(st: State, st': State) {
    && st.now <= st'.now && st.refreshTTL == st'.refreshTTL
    && st.family.Items <= st'.family.Items && st.logins.Items <= st'.logins.Items
  }

  lemma StepGrows(st: State, step: Step)
    requires Enabled(st, step)
    ensures Grows(st, Next(st, step))
  {
  }

  /** A session row, as far as transaction `u` relies on it. */
  predicate SessionKept(st: State, st': State, s: Sid, u: nat) {
    && (LockedBy(st.sessions, s, u) ==> LockedBy(st'.sessions, s, u))
    && (Committed(st.sessions, s).Some? ==> Committed(st'.sessions, s).Some?)
    && (KilledBy(st, s, u) ==> KilledBy(st', s, u))
  }

  lemma BystanderSession(st: State, step: Step, s: Sid, u: nat)
    requires SidOK(st, s) && Enabled(st, step) && !Ends(step)
    ensures SessionKept(st, Next(st, step), s, u)
  {
    if Stamps(step) { StampKept(st, step, s); } else { SameSessions(st, step); }
  }

  /** Writing session rows never revives one, never unlocks one and never touches the committed images. */
  lemma StampKept(st: State, step: Step, s: Sid)
    requires SidOK(st, s) && Enabled(st, step) && Stamps(step)
    ensures var db, db' := st.sessions, Next(st, step).sessions;
      && Committed(db', s) == Committed(db, s)
      && (forall u: nat :: LockedBy(db, s, u) ==> LockedBy(db', s, u))
      && (s in st.logins && Current(db, s).Some? ==>
            s in Next(st, step).logins && Current(db', s).Some? && (Current(db, s).value.revoked ==> Current(db', s).value.revoked))
  {
  }

  lemma BystanderToken(st: State, step: Step, h: Hash, s: Sid, u: nat)
    requires HashOK(st, h) && Enabled(st, step) && !Ends(step) && Taken(st, h, s, u)
    ensures Taken(Next(st, step), h, s, u)
  {
  }

  lemma EndSessionKept(st: State, step: Step, s: Sid, u: nat)
    requires SidOK(st, s) && Enabled(st, step) && Ends(step) && u != step.t
    ensures SessionKept(st, Next(st, step), s, u)
  {
    CommitViews(st.sessions, step.t, s);
    AbortViews(st.sessions, step.t, s);
  }

  lemma EndTaken(st: State, step: Step, h: Hash, s: Sid, u: nat)
    requires Enabled(st, step) && Ends(step) && u != step.t && Taken(st, h, s, u)
    ensures Taken(Next(st, step), h, s, u)
  {
    CommitViews(st.tokens, step.t, h);
    AbortViews(st.tokens, step.t, h);
  }

  lemma Bystander(st: State, step: Step, u: nat, h: Hash, s: Sid)
    requires HashOK(st, h) && SidOK(st, s) && Enabled(st, step) && !(Ends(step) && u == step.t)
    ensures SessionKept(st, Next(st, step), s, u)
    ensures Taken(st, h, s, u) ==> Taken(Next(st, step), h, s, u)
    ensures (step.Purge? || step.Tick? || u != step.t) && !LockedBy(st.tokens, h, u) ==> !LockedBy(Next(st, step).tokens, h, u)
    ensures Grows(st, Next(st, step))
  {
    StepGrows(st, step);
    if Ends(step) {
      EndSessionKept(st, step, s, u);
      if Taken(st, h, s, u) { EndTaken(st, step, h, s, u); }
    } else {
      BystanderSession(st, step, s, u);
      if Taken(st, h, s, u) { BystanderToken(st, step, h, s, u); }
    }
  }

  /** The token and the family a phase speaks of. */
  function HashOf(p: Phase): Hash {
    match p
    case Loaded(h, _, _) => h
    case Checked(h, _, _) => h
    case Won(h, _, _) => h
    case Touched(h, _, _) => h
    case Issued(r) => r.from
    case _ => ""
  }

  function SidOf(p: Phase): Sid {
    match p
    case Opening(s) => s
    case LoggedIn(s) => s
    case Loaded(_, tok, _) => tok.session
    case Checked(_, tok, _) => tok.session
    case Won(_, tok, _) => tok.session
    case Touched(_, tok, _) => tok.session
    case Issued(r) => r.session
    case Failing(s) => s
    case Reuse(s, _) => s
    case SessionKilled(s) => s
    case Contained(s) => s
    case Revoking => ""
  }

  lemma PhaseKept(st: State, st': State, u: nat, p: Phase)
    requires PhaseOK(st, u, p) && Grows(st, st') && SessionKept(st, st', SidOf(p), u)
    requires Taken(st, HashOf(p), SidOf(p), u) ==> Taken(st', HashOf(p), SidOf(p), u)
    requires !LockedBy(st.tokens, HashOf(p), u) ==> !LockedBy(st'.tokens, HashOf(p), u)
    ensures PhaseOK(st', u, p)
  {
    assert forall h | h in st.family :: (h, st.family[h]) in st.family.Items;
    assert forall s | s in st.logins :: (s, st.logins[s]) in st.logins.Items;
  }

  /** The step's own transaction enters a valid phase. */
  lemma ActorTx(st: State, step: Step, t: nat)
    requires StepOK(st, step) && Enabled(st, step) && !Ends(step) && !step.Purge? && !step.Tick? && step.t == t
    ensures TxOK(Next(st, step), t)
  {
    if Mints(step) {
      ActorMints(st, step, t);
    } else if step.Check? || step.Swap? || step.Touch? {
      ActorRefreshes(st, step, t);
    } else {
      ActorOther(st, step, t);
    }
  }

  lemma ActorMints(st: State, step: Step, t: nat)
    requires StepOK(st, step) && Enabled(st, step) && Mints(step) && step.t == t
    ensures TxOK(Next(st, step), t)
  {
  }

  lemma ActorRefreshes(st: State, step: Step, t: nat)
    requires StepOK(st, step) && Enabled(st, step) && (step.Check? || step.Swap? || step.Touch?) && step.t == t
    ensures TxOK(Next(st, step), t)
  {
  }

  lemma ActorOther(st: State, step: Step, t: nat)
    requires StepOK(st, step) && Enabled(st, step) && !Ends(step) && !step.Purge? && !step.Tick? && step.t == t
    requires !Mints(step) && !step.Check? && !step.Swap? && !step.Touch?
    ensures TxOK(Next(st, step), t)
  {
  }

  lemma BystanderTx(st: State, step: Step, u: nat)
    requires TxOK(st, u) && u in st.txs && HashOK(st, HashOf(st.txs[u])) && SidOK(st, SidOf(st.txs[u]))
    requires Enabled(st, step) && (step.Purge? || step.Tick? || step.t != u)
    ensures TxOK(Next(st, step), u)
  {
    Bystander(st, step, u, HashOf(st.txs[u]), SidOf(st.txs[u]));
    PhaseKept(st, Next(st, step), u, st.txs[u]);
  }

  lemma StepTx(st: State, step: Step, u: nat)
    requires TxOK(st, u) && (u in st.txs ==> HashOK(st, HashOf(st.txs[u])) && SidOK(st, SidOf(st.txs[u])))
    requires StepOK(st, step) && Enabled(st, step)
    ensures TxOK(Next(st, step), u)
  {
    if step.Purge? || step.Tick? || step.t != u {
      if u in st.txs { BystanderTx(st, step, u); }
    } else if !Ends(step) {
      ActorTx(st, step, u);
    }
  }

  lemma EndLocks(st: State, step: Step, h: Hash, s: Sid)
    requires LockOK(st, h) && SessionLockOK(st, s) && Enabled(st, step) && Ends(step)
    ensures LockOK(Next(st, step), h) && SessionLockOK(Next(st, step), s)
  {
  }

  lemma StepTxs(st: State, step: Step)
    requires Inv(st) && Enabled(st, step)
    ensures TxsOK(Next(st, step))
  {
    StepIsOK(st, step);
    forall u ensures TxOK(Next(st, step), u) {
      assert TxOK(st, u);
      StepTx(st, step, u);
    }
    forall h ensures LockOK(Next(st, step), h) {
      if Ends(step) { EndLocks(st, step, h, ""); } else { StepToken(st, step, h); }
    }
    forall s ensures SessionLockOK(Next(st, step), s) {
      if Ends(step) { EndLocks(st, step, "", s); } else { StepSession(st, step, s); }
    }
  }

  // ----- Containment -----

  lemma KillContains(st: State, t: nat)
    requires Inv(st) && Enabled(st, KillTokens(t))
    ensures ContainedBy(Next(st, KillTokens(t)), st.txs[t].sid, t)
  {
    var s, st' := st.txs[t].sid, Next(st, KillTokens(t));
    assert TxOK(st, t);
    forall c ensures Quiet(st', s, c) {
      match c
      case Tok(h) => KillsToken(st, t, h);
      case Tx(u) => KillWinner(st, t, u);
    }
    forall h ensures Held(st', s, h, t) { KillsToken(st, t, h); }
  }

  lemma KillsToken(st: State, t: nat, h: Hash)
    requires RowsOK(st) && TxsOK(st) && Enabled(st, KillTokens(t))
    ensures Quiet(Next(st, KillTokens(t)), st.txs[t].sid, Tok(h)) && Held(Next(st, KillTokens(t)), st.txs[t].sid, h, t)
  {
    var s := st.txs[t].sid;
    assert TokenOK(st, h) && LockOK(st, h);
    assert h in InFamily(st, s) <==> h in st.tokens.rows && st.tokens.rows[h].session == s;
    WriteViews(st.tokens, t, Revoked(st, InFamily(st, s)), h);
  }

  /** A transaction in flight would hold a row of the family, and the statement would still be waiting. */
  lemma KillWinner(st: State, t: nat, u: nat)
    requires RowsOK(st) && TxsOK(st) && Enabled(st, KillTokens(t))
    ensures Quiet(Next(st, KillTokens(t)), st.txs[t].sid, Tx(u))
  {
    var s := st.txs[t].sid;
    assert TxOK(st, t) && TxOK(st, u);
    if u in st.txs && (st.txs[u].Won? || st.txs[u].Touched?) {
      var h := st.txs[u].hash;
      assert TokenOK(st, h);
      assert h in InFamily(st, s) <==> h in st.tokens.rows && st.tokens.rows[h].session == s;
    }
  }

  lemma StepContain(st: State, step: Step, u: nat)
    requires Inv(st) && Enabled(st, step)
    ensures ContainOK(Next(st, step), u)
  {
    var st' := Next(st, step);
    if step.KillTokens? && step.t == u {
      KillContains(st, u);
    } else if u in st'.txs && st'.txs[u].Contained? {
      var s := st.txs[u].sid;
      assert ContainOK(st, u);
      if !Acts(st, step, s) {
        StepCalm(st, step, s);
        CalmContained(st, st', s, u);
      } else {
        ActsContained(st, step, s, u);
      }
    }
  }

  lemma EndQuiet(st: State, step: Step, s: Sid, u: nat, c: Claimant)
    requires Enabled(st, step) && Ends(step) && step.t != u && ContainedBy(st, s, u)
    ensures Quiet(Next(st, step), s, c)
  {
    assert Quiet(st, s, c);
    if c.Tok? {
      assert Held(st, s, c.hash, u);
      CommitViews(st.tokens, step.t, c.hash);
      AbortViews(st.tokens, step.t, c.hash);
    }
  }

  lemma EndHeld(st: State, step: Step, s: Sid, u: nat, h: Hash)
    requires Enabled(st, step) && Ends(step) && step.t != u && ContainedBy(st, s, u)
    ensures Held(Next(st, step), s, h, u)
  {
    assert Quiet(st, s, Tok(h)) && Held(st, s, h, u);
    CommitViews(st.tokens, step.t, h);
    AbortViews(st.tokens, step.t, h);
  }

  lemma SwapContained(st: State, t: nat, s: Sid, u: nat)
    requires Inv(st) && Enabled(st, Swap(t)) && st.txs[t].tok.session == s && ContainedBy(st, s, u)
    ensures ContainedBy(Next(st, Swap(t)), s, u)
  {
    var h := st.txs[t].hash;
    assert TxOK(st, t) && TokenOK(st, h) && Quiet(st, s, Tok(h));
    assert Next(st, Swap(t)) == To(st, t, Reuse(s, st.txs[t].tok.user));
    forall c ensures Quiet(Next(st, Swap(t)), s, c) { assert Quiet(st, s, c); }
    forall k ensures Held(Next(st, Swap(t)), s, k, u) { assert Held(st, s, k, u); }
  }

  lemma NoClaim(st: State, s: Sid, u: nat, c: Claimant)
    requires ContainedBy(st, s, u)
    ensures !Claims(st, s, c)
  {
    assert Quiet(st, s, c);
  }

  /** Only the end of another transaction can act in a contained family, and it finds nothing to bring back. */
  lemma ActsContained(st: State, step: Step, s: Sid, u: nat)
    requires Inv(st) && Enabled(st, step) && Acts(st, step, s)
    requires u in st.txs && st.txs[u] == Contained(s) && u in Next(st, step).txs && Next(st, step).txs[u] == Contained(s)
    ensures ContainedBy(Next(st, step), s, u)
  {
    var st' := Next(st, step);
    assert TxOK(st, u) && ContainOK(st, u);
    if step.First? || step.Issue? {
      NoClaim(st, s, u, Tx(step.t));
      assert false;
    } else if step.Open? {
      assert false;
    } else if step.Swap? {
      SwapContained(st, step.t, s, u);
    } else {
      forall c ensures Quiet(st', s, c) { EndQuiet(st, step, s, u, c); }
      forall h ensures Held(st', s, h, u) { EndHeld(st, step, s, u, h); }
    }
  }

  // ----- Rotations -----

  lemma MintSpent(st: State, step: Step, h: Hash)
    requires Enabled(st, step) && Mints(step) && Spent(st, h)
    ensures Spent(Next(st, step), h)
  {
  }

  lemma StepSpent(st: State, step: Step, h: Hash)
    requires HashOK(st, h) && Enabled(st, step) && !Ends(step) && Spent(st, h)
    ensures Spent(Next(st, step), h)
  {
    if Mints(step) {
      MintSpent(st, step, h);
    } else if Retires(step) {
      StepGrows(st, step);
      assert (h, st.family[h]) in st.family.Items;
      RetireCalm(st, step, "", h);
    } else {
      SameTokens(st, step);
    }
  }

  lemma EndSpent(st: State, step: Step, h: Hash)
    requires Enabled(st, step) && Ends(step) && Spent(st, h)
    ensures Spent(Next(st, step), h)
  {
    CommitViews(st.tokens, step.t, h);
    AbortViews(st.tokens, step.t, h);
  }

  lemma StepDone(st: State, step: Step, r: Rotation)
    requires HashOK(st, r.from) && Enabled(st, step) && Done(st, r)
    ensures Done(Next(st, step), r)
  {
    StepGrows(st, step);
    assert (r.session, st.logins[r.session]) in st.logins.Items && (r.from, st.family[r.from]) in st.family.Items;
    if Ends(step) { EndSpent(st, step, r.from); } else { StepSpent(st, step, r.from); }
  }

  /** The rotation that a commit publishes has spent its token. */
  lemma CommitDone(st: State, t: nat)
    requires t in st.txs && st.txs[t].Issued? && TxOK(st, t) && HashOK(st, st.txs[t].rotation.from)
    ensures Done(Next(st, Step.Commit(t)), st.txs[t].rotation)
  {
    CommitViews(st.tokens, t, st.txs[t].rotation.from);
  }

  lemma StepHistory(st: State, step: Step)
    requires Inv(st) && Enabled(st, step)
    ensures HistoryOK(Next(st, step))
  {
    var st' := Next(st, step);
    forall i | 0 <= i < |st.rotations| ensures Done(st', st.rotations[i]) {
      assert Done(st, st.rotations[i]) && HashOK(st, st.rotations[i].from);
      StepDone(st, step, st.rotations[i]);
    }
    if step.Commit? && st.txs[step.t].Issued? {
      var r := st.txs[step.t].rotation;
      assert TxOK(st, step.t) && HashOK(st, r.from);
      CommitDone(st, step.t);
      assert st'.rotations == st.rotations + [r];
    }
  }

  // ----- All of it -----

  lemma StepContainment(st: State, step: Step)
    requires Inv(st) && Enabled(st, step)
    ensures ContainmentOK(Next(st, step))
  {
    forall u ensures ContainOK(Next(st, step), u) { StepContain(st, step, u); }
  }

  lemma StepInv(st: State, step: Step)
    requires Inv(st) && Enabled(st, step)
    ensures Inv(Next(st, step))
  {
    StepRows(st, step);
    StepFamilies(st, step);
    StepTxs(st, step);
    StepContainment(st, step);
    StepHistory(st, step);
  }

  lemma {:induction false} RunInv(st: State, steps: seq<Step>)
    requires Inv(st) && Run(st, steps).Some?
    ensures Inv(Run(st, steps).value)
    decreases |steps|
  {
    if steps != [] {
      StepInv(st, steps[0]);
      RunInv(Next(st, steps[0]), steps[1..]);
    }
  }
}
