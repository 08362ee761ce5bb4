/** Reuse containment seen from the access tokens: the two halves of the identity model meet. */
module Containment {
  import opened Common
  import opened RowLocks
  import F = TokenFamily
  import opened FamilySafety
  import A = Authority
  import opened JwtRotation

  /** `db` is a snapshot of the committed sessions of `st`. */
  predicate Mirrors(st: F.State, db: A.DB, s: F.Sid) {
    match Committed(st.sessions, s)
    case None => s !in db.sessions
    case Some(row) =>
      s in db.sessions && db.sessions[s].user == row.user && db.sessions[s].revoked == row.revoked && db.sessions[s].expiresAt == row.expiresAt
  }

  /**
   * Once a reuse handler has committed, the check refuses every access token of
   * that session, at every later moment of every continuation.
   */
  lemma AccessDies(start: F.State, before: seq<F.Step>, t: nat, after: seq<F.Step>, db: A.DB, c: Claims)
    requires F.Initial(start) && F.Run(start, before).Some?
    requires var st := F.Run(start, before).value;
      && t in st.txs && st.txs[t].Contained? && c.sid == st.txs[t].sid
      && F.Run(F.Next(st, F.Step.Commit(t)), after).Some?
      && Mirrors(F.Run(F.Next(st, F.Step.Commit(t)), after).value, db, c.sid)
    ensures !A.Accepts(db, c)
  {
    ReuseContained(start, before, t, after);
  }
}
