/**
 * Refresh-token families under concurrent logins, refreshes, revocations and
 * purges, statement by statement (internal/services/auth_service.go,
 * internal/repositories/refresh_token_repository.go, session_repository.go).
 *
 * A consistent read sees the committed rows of the moment the transaction first
 * reads. An UPDATE or INSERT waits for the row lock, acts on the current row and
 * holds the lock until its transaction ends.
 */
module TokenFamily {
  import opened Common
  import opened RowLocks

  type Hash = string
  type Sid = string

  datatype Token = Token(session: Sid, user: nat, revoked: bool, expiresAt: int)
  datatype Session = Session(user: nat, revoked: bool, expiresAt: int)

  /** A refresh of token `from` that passed its expiry check at `checkedAt` and issued `to` at `issuedAt`. */
  datatype Rotation = Rotation(session: Sid, from: Hash, to: Hash, checkedAt: int, issuedAt: int)

  datatype Login = Login(user: nat, at: int)

  /** Where a transaction is between its statements. */
  datatype Phase =
    | Opening(sid: Sid)                                        // login: session row inserted
    | LoggedIn(sid: Sid)                                       // login: first refresh token inserted
    | Loaded(hash: Hash, tok: Token, sess: Option<Session>)    // refresh: token and session read
    | Checked(hash: Hash, tok: Token, at: int)                 // refresh: checks passed
    | Won(hash: Hash, tok: Token, at: int)                     // refresh: compare-and-set won
    | Touched(hash: Hash, tok: Token, at: int)                 // refresh: session activity stamped
    | Issued(rotation: Rotation)                               // refresh: successor token inserted
    | Failing(sid: Sid)                                        // an error or unaudited denial, about to roll back
    | Reuse(sid: Sid, user: nat)                               // reuse detected
    | SessionKilled(sid: Sid)                                  // reuse: session row revoked
    | Contained(sid: Sid)                                      // reuse: family tokens revoked, event admitted
    | Revoking                                                 // logout, sign-out, device revocation, credential change

  datatype State = State(
    tokens: Table<Hash, Token>,
    sessions: Table<Sid, Session>,
    txs: map<nat, Phase>,
    now: int,
    refreshTTL: int,
    family: map<Hash, Sid>,        // every refresh token ever minted, and its session
    logins: map<Sid, Login>,       // every session ever minted
    rotations: seq<Rotation>)      // the committed rotations, oldest first

  datatype Step =
    | Open(t: nat, sid: Sid, user: nat)
    | First(t: nat, minted: Hash)
    | Load(t: nat, hash: Hash)
    | Check(t: nat, active: bool)
    | Swap(t: nat)
    | Touch(t: nat)
    | Issue(t: nat, minted: Hash)
    | KillSession(t: nat)
    | KillTokens(t: nat)
    | Begin(t: nat)
    | RevokeTokens(t: nat, hashes: set<Hash>)
    | RevokeSessions(t: nat, sids: set<Sid>)
    | Commit(t: nat)
    | Abort(t: nat)
    | Purge(cutoff: int, hashes: set<Hash>)
    | Tick(delta: nat)

  // ----- Statements -----

  function InFamily(st: State, s: Sid): set<Hash> {
    set h | h in st.tokens.rows && st.tokens.rows[h].session == s
  }

  /** UPDATE refresh_tokens SET revoked = true WHERE ... AND revoked = false. */
  function Revoked(st: State, hashes: set<Hash>): map<Hash, Token> {
    map h | h in hashes && h in st.tokens.rows && !st.tokens.rows[h].revoked :: st.tokens.rows[h].(revoked := true)
  }

  function RevokedSessions(st: State, sids: set<Sid>): map<Sid, Session> {
    map s | s in sids && s in st.sessions.rows && !st.sessions.rows[s].revoked :: st.sessions.rows[s].(revoked := true)
  }

  predicate Purgeable(st: State, h: Hash, cutoff: int) {
    && h in st.tokens.rows && h !in st.tokens.locks
    && (st.tokens.rows[h].revoked || st.tokens.rows[h].expiresAt < cutoff)
  }

  /** The state check on the access token about to be issued, read through the transaction's own writes. */
  predicate SessionAlive(st: State, s: Sid) {
    s in st.sessions.rows && !st.sessions.rows[s].revoked && st.now < st.sessions.rows[s].expiresAt
  }

  /** Refresh, up to the compare-and-set: revoked token, expired token, inactive user, missing session, dead session. */
  function CheckedPhase(st: State, p: Phase, active: bool): Phase
    requires p.Loaded?
  {
    var s := p.tok.session;
    if p.tok.revoked then Reuse(s, p.tok.user)
    else if st.now > p.tok.expiresAt then Failing(s)
    else if !active || p.sess.None? then Failing(s)
    else if p.sess.value.revoked || st.now > p.sess.value.expiresAt then Reuse(s, p.tok.user)
    else Checked(p.hash, p.tok, st.now)
  }

  predicate MayCommit(p: Phase) {
    p.LoggedIn? || p.Issued? || p.Contained? || p.Revoking?
  }

  predicate Enabled(st: State, step: Step) {
    match step
    case Open(t, sid, user) => t !in st.txs && sid !in st.logins
    case First(t, h) => t in st.txs && st.txs[t].Opening? && h !in st.family
    case Load(t, h) => t !in st.txs && Committed(st.tokens, h).Some?
    case Check(t, _) => t in st.txs && st.txs[t].Loaded?
    case Swap(t) => t in st.txs && st.txs[t].Checked? && Free(st.tokens, st.txs[t].hash, t)
    case Touch(t) => t in st.txs && st.txs[t].Won? && Free(st.sessions, st.txs[t].tok.session, t)
    case Issue(t, h) => t in st.txs && st.txs[t].Touched? && h !in st.family
    case KillSession(t) => t in st.txs && st.txs[t].Reuse? && Free(st.sessions, st.txs[t].sid, t)
    case KillTokens(t) => t in st.txs && st.txs[t].SessionKilled? && AllFree(st, InFamily(st, st.txs[t].sid), t)
    case Begin(t) => t !in st.txs
    case RevokeTokens(t, hashes) => t in st.txs && st.txs[t].Revoking? && AllFree(st, hashes, t)
    case RevokeSessions(t, sids) => t in st.txs && st.txs[t].Revoking? && forall s | s in sids :: Free(st.sessions, s, t)
    case Commit(t) => t in st.txs && MayCommit(st.txs[t])
    case Abort(t) => t in st.txs
    case Purge(cutoff, hashes) => true
    case Tick(delta) => true
  }

  predicate AllFree(st: State, hashes: set<Hash>, t: nat) {
    forall h | h in hashes :: Free(st.tokens, h, t)
  }

  // ----- One statement of one transaction -----

  function To(st: State, t: nat, p: Phase): State {
    st.(txs := st.txs[t := p])
  }

  function WriteTokens(st: State, t: nat, written: map<Hash, Token>): State {
    st.(tokens := Write(st.tokens, t, written))
  }

  function WriteSessions(st: State, t: nat, written: map<Sid, Session>): State {
    st.(sessions := Write(st.sessions, t, written))
  }

  /** INSERT of a new refresh token. */
  function Mint(st: State, t: nat, h: Hash, s: Sid, user: nat): State {
    WriteTokens(st, t, map[h := Token(s, user, false, st.now + st.refreshTTL)]).(family := st.family[h := s])
  }

  function Ended(st: State, t: nat): State {
    st.(txs := st.txs - {t})
  }

  function Next(st: State, step: Step): State
    requires Enabled(st, step)
  {
    match step
    case Open(t, sid, user) =>
      To(WriteSessions(st, t, map[sid := Session(user, false, st.now + st.refreshTTL)]), t, Opening(sid))
        .(logins := st.logins[sid := Login(user, st.now)])
    case First(t, h) =>
      var s := st.txs[t].sid;
      if SessionAlive(st, s) then To(Mint(st, t, h, s, st.sessions.rows[s].user), t, LoggedIn(s)) else To(st, t, Failing(s))
    case Load(t, h) =>
      var tok := Committed(st.tokens, h).value;
      To(st, t, Loaded(h, tok, Committed(st.sessions, tok.session)))
    case Check(t, active) => To(st, t, CheckedPhase(st, st.txs[t], active))
    case Swap(t) =>
      var p := st.txs[t];
      if p.hash in st.tokens.rows && !st.tokens.rows[p.hash].revoked
      then To(WriteTokens(st, t, Revoked(st, {p.hash})), t, Won(p.hash, p.tok, p.at))
      else To(st, t, Reuse(p.tok.session, p.tok.user))
    case Touch(t) =>
      var p := st.txs[t];
      var s := p.tok.session;
      To(WriteSessions(st, t, if s in st.sessions.rows then map[s := st.sessions.rows[s]] else map[]), t, Touched(p.hash, p.tok, p.at))
    case Issue(t, h) =>
      var p := st.txs[t];
      var s := p.tok.session;
      if SessionAlive(st, s)
      then To(Mint(st, t, h, s, p.tok.user), t, Issued(Rotation(s, p.hash, h, p.at, st.now)))
      else To(st, t, Failing(s))
    case KillSession(t) =>
      var p := st.txs[t];
      To(if p.sid in st.sessions.rows && st.sessions.rows[p.sid].user == p.user
         then WriteSessions(st, t, map[p.sid := st.sessions.rows[p.sid].(revoked := true)])
         else st, t, SessionKilled(p.sid))
    case KillTokens(t) =>
      var s := st.txs[t].sid;
      To(WriteTokens(st, t, Revoked(st, InFamily(st, s))), t, Contained(s))
    case Begin(t) => To(st, t, Revoking)
    case RevokeTokens(t, hashes) => WriteTokens(st, t, Revoked(st, hashes))
    case RevokeSessions(t, sids) => WriteSessions(st, t, RevokedSessions(st, sids))
    case Commit(t) =>
      Ended(st, t).(tokens := RowLocks.Commit(st.tokens, t), sessions := RowLocks.Commit(st.sessions, t),
                    rotations := if st.txs[t].Issued? then st.rotations + [st.txs[t].rotation] else st.rotations)
    case Abort(t) => Ended(st, t).(tokens := RowLocks.Abort(st.tokens, t), sessions := RowLocks.Abort(st.sessions, t))
    case Purge(cutoff, hashes) =>
      st.(tokens := st.tokens.(rows := map h | h in st.tokens.rows && !(h in hashes && Purgeable(st, h, cutoff)) :: st.tokens.rows[h]))
    case Tick(delta) => st.(now := st.now + delta)
  }

  predicate Initial(st: State) {
    st.tokens == Table(map[], map[]) && st.sessions == Table(map[], map[]) && st.txs == map[]
    && st.family == map[] && st.logins == map[] && st.rotations == []
  }

  function Run(st: State, steps: seq<Step>): Option<State>
    decreases |steps|
  {
    if steps == [] then Some(st)
    else if Enabled(st, steps[0]) then Run(Next(st, steps[0]), steps[1..]) else None
  }
}
