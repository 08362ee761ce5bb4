/** What every reachable state of the refresh-token families satisfies. */
module FamilyInvariant {
  import opened Common
  import opened RowLocks
  import opened TokenFamily

  // ----- Rows -----

  predicate TokenRowOK(st: State, h: Hash, r: Token) {
    && h in st.family && st.family[h] == r.session
    && r.session in st.logins && r.user == st.logins[r.session].user
  }

  predicate SessionRowOK(st: State, s: Sid, r: Session) {
    && s in st.logins && r.user == st.logins[s].user
    && r.expiresAt == st.logins[s].at + st.refreshTTL
  }

  /** The session row of a token is committed, or was inserted by the transaction that inserted the token. */
  predicate Homed(st: State, h: Hash, s: Sid) {
    && Current(st.sessions, s).Some?
    && (Committed(st.sessions, s).Some? ||
        (h in st.tokens.locks && s in st.sessions.locks && st.tokens.locks[h].tx == st.sessions.locks[s].tx))
  }

  predicate TokenOK(st: State, h: Hash) {
    && (Current(st.tokens, h).Some? ==>
          TokenRowOK(st, h, Current(st.tokens, h).value) && Homed(st, h, Current(st.tokens, h).value.session))
    && (Committed(st.tokens, h).Some? ==>
          TokenRowOK(st, h, Committed(st.tokens, h).value) && Committed(st.sessions, Committed(st.tokens, h).value.session).Some?)
  }

  predicate SessionOK(st: State, s: Sid) {
    && (Current(st.sessions, s).Some? ==> SessionRowOK(st, s, Current(st.sessions, s).value))
    && (Committed(st.sessions, s).Some? ==>
          && SessionRowOK(st, s, Committed(st.sessions, s).value)
          && Current(st.sessions, s).Some?
          && (Committed(st.sessions, s).value.revoked ==> Current(st.sessions, s).value.revoked))
  }

  ghost predicate RowsOK(st: State) {
    (forall h :: TokenOK(st, h)) && (forall s :: SessionOK(st, s))
  }

  // ----- At most one claim on a family -----

  /** Who can use or continue a family: an unrevoked token, or a transaction between winning and issuing. */
  datatype Claimant = Tok(hash: Hash) | Tx(t: nat)

  predicate Live(r: Option<Token>, s: Sid) {
    r.Some? && !r.value.revoked && r.value.session == s
  }

  predicate InFlight(p: Phase, s: Sid) {
    match p
    case Opening(sid) => sid == s
    case Won(_, tok, _) => tok.session == s
    case Touched(_, tok, _) => tok.session == s
    case _ => false
  }

  predicate Claims(st: State, s: Sid, c: Claimant) {
    match c
    case Tok(h) => Live(Current(st.tokens, h), s)
    case Tx(t) => t in st.txs && InFlight(st.txs[t], s)
  }

  predicate Owns(st: State, c: Claimant, t: nat) {
    match c
    case Tok(h) => LockedBy(st.tokens, h, t)
    case Tx(u) => u == t
  }

  predicate CommittedLive(st: State, s: Sid, h: Hash) {
    Live(Committed(st.tokens, h), s)
  }

  predicate Agree(st: State, s: Sid, c: Claimant, d: Claimant) {
    Claims(st, s, c) && Claims(st, s, d) ==> c == d
  }

  predicate AgreeLive(st: State, s: Sid, h: Hash, k: Hash) {
    CommittedLive(st, s, h) && CommittedLive(st, s, k) ==> h == k
  }

  /** An uncommitted claim holds the lock on the token it replaces. */
  predicate Guards(st: State, s: Sid, c: Claimant, t: nat, h: Hash) {
    Claims(st, s, c) && Owns(st, c, t) && CommittedLive(st, s, h) ==> LockedBy(st.tokens, h, t)
  }

  ghost predicate FamilyOK(st: State, s: Sid) {
    && (forall c, d :: Agree(st, s, c, d))
    && (forall h, k :: AgreeLive(st, s, h, k))
    && (forall c, t, h :: Guards(st, s, c, t, h))
  }

  ghost predicate FamiliesOK(st: State) {
    forall s :: FamilyOK(st, s)
  }

  // ----- Transactions -----

  /** `h` is revoked by `t` and still unrevoked for everybody else. */
  predicate Taken(st: State, h: Hash, s: Sid, t: nat) {
    && LockedBy(st.tokens, h, t)
    && Current(st.tokens, h).Some? && Current(st.tokens, h).value.revoked
    && CommittedLive(st, s, h)
  }

  predicate RefreshOK(st: State, h: Hash, tok: Token, at: int) {
    && TokenRowOK(st, h, tok) && Committed(st.sessions, tok.session).Some?
    && at <= st.now && at <= st.logins[tok.session].at + st.refreshTTL
  }

  predicate RotationOK(st: State, r: Rotation) {
    r.session in st.logins && r.checkedAt <= r.issuedAt < st.logins[r.session].at + st.refreshTTL
  }

  predicate KilledBy(st: State, s: Sid, t: nat) {
    s in st.logins && LockedBy(st.sessions, s, t) && Current(st.sessions, s).Some? && Current(st.sessions, s).value.revoked
  }

  predicate Quiet(st: State, s: Sid, c: Claimant) {
    !Claims(st, s, c)
  }

  predicate Held(st: State, s: Sid, h: Hash, t: nat) {
    CommittedLive(st, s, h) ==> LockedBy(st.tokens, h, t)
  }

  predicate PhaseOK(st: State, t: nat, p: Phase) {
    match p
    case Opening(s) => s in st.logins && LockedBy(st.sessions, s, t)
    case LoggedIn(s) => s in st.logins
    case Loaded(h, tok, sess) =>
      && TokenRowOK(st, h, tok) && Committed(st.sessions, tok.session).Some? && !LockedBy(st.tokens, h, t)
      && (sess.Some? ==> SessionRowOK(st, tok.session, sess.value))
    case Checked(h, tok, at) => RefreshOK(st, h, tok, at) && !LockedBy(st.tokens, h, t)
    case Won(h, tok, at) => RefreshOK(st, h, tok, at) && Taken(st, h, tok.session, t)
    case Touched(h, tok, at) => RefreshOK(st, h, tok, at) && Taken(st, h, tok.session, t)
    case Issued(r) => RotationOK(st, r) && Taken(st, r.from, r.session, t)
    case Failing(s) => s in st.logins
    case Reuse(s, user) => s in st.logins && user == st.logins[s].user && Committed(st.sessions, s).Some?
    case SessionKilled(s) => KilledBy(st, s, t)
    case Contained(s) => KilledBy(st, s, t)
    case Revoking => true
  }

  predicate TxOK(st: State, t: nat) {
    t in st.txs ==> PhaseOK(st, t, st.txs[t])
  }

  /** A login or refresh writes rows of one family only. */
  predicate Within(p: Phase, s: Sid) {
    match p
    case Opening(sid) => sid == s
    case LoggedIn(sid) => sid == s
    case Loaded(_, tok, _) => tok.session == s
    case Checked(_, tok, _) => tok.session == s
    case Won(_, tok, _) => tok.session == s
    case Touched(_, tok, _) => tok.session == s
    case Issued(r) => r.session == s
    case Failing(sid) => sid == s
    case Reuse(sid, _) => sid == s
    case SessionKilled(sid) => sid == s
    case Contained(sid) => sid == s
    case Revoking => true
  }

  predicate LockOK(st: State, h: Hash) {
    h in st.tokens.locks ==>
      && h in st.family && h in st.tokens.rows
      && st.tokens.locks[h].tx in st.txs && Within(st.txs[st.tokens.locks[h].tx], st.family[h])
  }

  predicate SessionLockOK(st: State, s: Sid) {
    s in st.sessions.locks ==>
      && s in st.logins && s in st.sessions.rows
      && st.sessions.locks[s].tx in st.txs && Within(st.txs[st.sessions.locks[s].tx], s)
  }

  ghost predicate TxsOK(st: State) {
    && (forall t :: TxOK(st, t))
    && (forall h :: LockOK(st, h))
    && (forall s :: SessionLockOK(st, s))
  }

  // ----- Containment -----

  /** Nobody can use the family, and nobody will once `t` commits. */
  ghost predicate ContainedBy(st: State, s: Sid, t: nat) {
    && (forall c :: Quiet(st, s, c))
    && (forall h :: Held(st, s, h, t))
  }

  ghost predicate ContainOK(st: State, t: nat) {
    t in st.txs && st.txs[t].Contained? ==> ContainedBy(st, st.txs[t].sid, t)
  }

  ghost predicate ContainmentOK(st: State) {
    forall t :: ContainOK(st, t)
  }

  // ----- Rotations -----

  /** A rotated token is revoked or gone, in both views. */
  predicate Spent(st: State, h: Hash) {
    && (Current(st.tokens, h).Some? ==> Current(st.tokens, h).value.revoked)
    && (Committed(st.tokens, h).Some? ==> Committed(st.tokens, h).value.revoked)
    && h in st.family
  }

  predicate Done(st: State, r: Rotation) {
    RotationOK(st, r) && Spent(st, r.from) && st.family[r.from] == r.session
  }

  ghost predicate HistoryOK(st: State) {
    && (forall i | 0 <= i < |st.rotations| :: Done(st, st.rotations[i]))
    && (forall i, j | 0 <= i < j < |st.rotations| :: st.rotations[i].from != st.rotations[j].from)
  }

  ghost predicate Inv(st: State) {
    RowsOK(st) && FamiliesOK(st) && TxsOK(st) && ContainmentOK(st) && HistoryOK(st)
  }

  lemma InitInv(st: State)
    requires Initial(st)
    ensures Inv(st)
  {
  }
}
