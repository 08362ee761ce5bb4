/** The guarantees of refresh-token families over every run. */
module FamilySafety {
  import opened Common
  import opened RowLocks
  import opened TokenFamily
  import opened FamilyInvariant
  import opened FamilySteps

  lemma ReachableInv(start: State, steps: seq<Step>)
    requires Initial(start) && Run(start, steps).Some?
    ensures Inv(Run(start, steps).value)
  {
    InitInv(start);
    RunInv(start, steps);
  }

  /** Unrevoked tokens and transactions about to issue one: together never more than one per session. */
  lemma AtMostOneClaim(start: State, steps: seq<Step>, s: Sid, c: Claimant, d: Claimant)
    requires Initial(start) && Run(start, steps).Some?
    requires Claims(Run(start, steps).value, s, c) && Claims(Run(start, steps).value, s, d)
    ensures c == d
  {
    var st := Run(start, steps).value;
    ReachableInv(start, steps);
    assert FamilyOK(st, s) && Agree(st, s, c, d);
  }

  /** The same for what is durably stored: one usable refresh token per session. */
  lemma AtMostOneLive(start: State, steps: seq<Step>, s: Sid, h: Hash, k: Hash)
    requires Initial(start) && Run(start, steps).Some?
    requires CommittedLive(Run(start, steps).value, s, h) && CommittedLive(Run(start, steps).value, s, k)
    ensures h == k
  {
    var st := Run(start, steps).value;
    ReachableInv(start, steps);
    assert FamilyOK(st, s) && AgreeLive(st, s, h, k);
  }

  /** However often a family rotates, no rotation comes later than login plus RefreshTTL. */
  lemma RotationsBounded(start: State, steps: seq<Step>, i: nat)
    requires Initial(start) && Run(start, steps).Some? && i < |Run(start, steps).value.rotations|
    ensures var st := Run(start, steps).value;
      var r := st.rotations[i];
      r.session in st.logins && r.checkedAt <= r.issuedAt < st.logins[r.session].at + st.refreshTTL
  {
    ReachableInv(start, steps);
    var st := Run(start, steps).value;
    assert Done(st, st.rotations[i]);
  }

  /** No refresh token is rotated twice, and a rotated one is never usable again. */
  lemma RotatedOnce(start: State, steps: seq<Step>, i: nat)
    requires Initial(start) && Run(start, steps).Some? && i < |Run(start, steps).value.rotations|
    ensures var st := Run(start, steps).value;
      && Spent(st, st.rotations[i].from)
      && (forall j | 0 <= j < |st.rotations| && j != i :: st.rotations[j].from != st.rotations[i].from)
  {
    ReachableInv(start, steps);
    var st := Run(start, steps).value;
    assert Done(st, st.rotations[i]);
  }

  // ----- Reuse containment -----

  predicate NoneLive(st: State, s: Sid, h: Hash) {
    !CommittedLive(st, s, h)
  }

  /** The session is durably revoked, and nobody holds or is about to issue a usable token of it. */
  ghost predicate Dead(st: State, s: Sid) {
    && Committed(st.sessions, s).Some? && Committed(st.sessions, s).value.revoked
    && (forall c :: Quiet(st, s, c))
    && (forall h :: NoneLive(st, s, h))
  }

  /** Committing the reuse handler's transaction kills the family. */
  lemma ContainmentKills(st: State, t: nat)
    requires Inv(st) && t in st.txs && st.txs[t].Contained?
    ensures Dead(Next(st, Step.Commit(t)), st.txs[t].sid)
  {
    var s, st' := st.txs[t].sid, Next(st, Step.Commit(t));
    assert TxOK(st, t) && ContainOK(st, t);
    CommitViews(st.sessions, t, s);
    forall c ensures Quiet(st', s, c) { assert Quiet(st, s, c); }
    forall h ensures NoneLive(st', s, h) {
      assert Held(st, s, h, t) && Quiet(st, s, Tok(h));
      CommitViews(st.tokens, t, h);
    }
  }

  /** ... and touches no row of any other family. */
  lemma ContainmentIsolated(st: State, t: nat, h: Hash, s: Sid)
    requires Inv(st) && t in st.txs && st.txs[t].Contained? && s != st.txs[t].sid
    ensures Committed(Next(st, Step.Commit(t)).sessions, s) == Committed(st.sessions, s)
    ensures h in st.family && st.family[h] == s ==> Committed(Next(st, Step.Commit(t)).tokens, h) == Committed(st.tokens, h)
  {
    assert LockOK(st, h) && SessionLockOK(st, s);
    CommitViews(st.sessions, t, s);
    CommitViews(st.tokens, t, h);
  }

  lemma DeadRevoked(st: State, step: Step, s: Sid)
    requires Inv(st) && Enabled(st, step) && Committed(st.sessions, s).Some? && Committed(st.sessions, s).value.revoked
    ensures var c := Committed(Next(st, step).sessions, s); c.Some? && c.value.revoked
  {
    assert SessionOK(st, s) && SidOK(st, s);
    if Ends(step) {
      CommitViews(st.sessions, step.t, s);
      AbortViews(st.sessions, step.t, s);
    } else if Stamps(step) {
      StampKept(st, step, s);
    } else {
      SameSessions(st, step);
    }
  }

  lemma DeadQuiet(st: State, step: Step, s: Sid, c: Claimant)
    requires Inv(st) && Enabled(st, step) && Dead(st, s)
    ensures Quiet(Next(st, step), s, c)
  {
    assert Quiet(st, s, c);
    if !Acts(st, step, s) {
      match c
      case Tok(h) =>
        assert HashOK(st, h);
        StepCalmToken(st, step, s, h);
      case Tx(u) => StepCalmTx(st, step, s, u);
    } else if Ends(step) {
      if c.Tok? {
        assert NoneLive(st, s, c.hash);
        CommitViews(st.tokens, step.t, c.hash);
        AbortViews(st.tokens, step.t, c.hash);
      }
    } else {
      DeadActs(st, step, s);
    }
  }

  lemma DeadClaim(st: State, s: Sid, c: Claimant)
    requires Dead(st, s)
    ensures !Claims(st, s, c)
  {
    assert Quiet(st, s, c);
  }

  /** All that is left to do in a dead family is to lose the compare-and-set. */
  lemma DeadActs(st: State, step: Step, s: Sid)
    requires Inv(st) && Enabled(st, step) && Dead(st, s) && Acts(st, step, s) && !Ends(step)
    ensures step.Swap? && Next(st, step) == To(st, step.t, Reuse(s, st.txs[step.t].tok.user))
  {
    assert SessionOK(st, s);
    if step.First? || step.Issue? {
      DeadClaim(st, s, Tx(step.t));
    } else if step.Swap? {
      var h := st.txs[step.t].hash;
      assert TxOK(st, step.t) && TokenOK(st, h);
      DeadClaim(st, s, Tok(h));
    }
  }

  lemma DeadNone(st: State, step: Step, s: Sid, h: Hash)
    requires Inv(st) && Enabled(st, step) && Dead(st, s)
    ensures NoneLive(Next(st, step), s, h)
  {
    assert NoneLive(st, s, h) && Quiet(st, s, Tok(h)) && HashOK(st, h);
    if Ends(step) {
      CommitViews(st.tokens, step.t, h);
      AbortViews(st.tokens, step.t, h);
    } else if Mints(step) {
      MintHides(st, step, s, h);
    } else if Retires(step) {
      RetireCalm(st, step, s, h);
    } else {
      SameTokens(st, step);
    }
  }

  /** A token inserted but not committed is nobody's yet. */
  lemma MintHides(st: State, step: Step, s: Sid, h: Hash)
    requires HashOK(st, h) && Enabled(st, step) && Mints(step) && NoneLive(st, s, h)
    ensures NoneLive(Next(st, step), s, h)
  {
  }

  lemma DeadStep(st: State, step: Step, s: Sid)
    requires Inv(st) && Enabled(st, step) && Dead(st, s)
    ensures Dead(Next(st, step), s)
  {
    DeadRevoked(st, step, s);
    forall c ensures Quiet(Next(st, step), s, c) { DeadQuiet(st, step, s, c); }
    forall h ensures NoneLive(Next(st, step), s, h) { DeadNone(st, step, s, h); }
  }

  lemma DeadRotates(st: State, step: Step, s: Sid)
    requires Inv(st) && Enabled(st, step) && Dead(st, s)
    ensures Next(st, step).rotations == st.rotations ||
      (exists r: Rotation :: r.session != s && Next(st, step).rotations == st.rotations + [r])
  {
    if step.Commit? && st.txs[step.t].Issued? {
      var r := st.txs[step.t].rotation;
      assert TxOK(st, step.t) && NoneLive(st, s, r.from);
      assert Next(st, step).rotations == st.rotations + [r];
    }
  }

  predicate Elsewhere(r: Rotation, s: Sid) {
    r.session != s
  }

  /** A dead family stays dead in every continuation, and none of its tokens is ever rotated again. */
  lemma {:induction false} DeadForever(st: State, steps: seq<Step>, s: Sid)
    requires Inv(st) && Dead(st, s) && Run(st, steps).Some?
    ensures var end := Run(st, steps).value;
      && Dead(end, s) && st.rotations <= end.rotations
      && (forall i | |st.rotations| <= i < |end.rotations| :: Elsewhere(end.rotations[i], s))
    decreases |steps|
  {
    if steps != [] {
      var st' := Next(st, steps[0]);
      StepInv(st, steps[0]);
      DeadStep(st, steps[0], s);
      DeadRotates(st, steps[0], s);
      DeadForever(st', steps[1..], s);
      var end := Run(st, steps).value;
      forall i | |st.rotations| <= i < |end.rotations| ensures Elsewhere(end.rotations[i], s) {
        if i < |st'.rotations| { assert end.rotations[i] == st'.rotations[i]; }
      }
    }
  }

  /** Reuse containment from start to finish: after the handler's commit the family is over, whatever follows. */
  lemma ReuseContained(start: State, before: seq<Step>, t: nat, after: seq<Step>)
    requires Initial(start) && Run(start, before).Some?
    requires var st := Run(start, before).value;
      t in st.txs && st.txs[t].Contained? && Run(Next(st, Step.Commit(t)), after).Some?
    ensures var st := Run(start, before).value;
      var end := Run(Next(st, Step.Commit(t)), after).value;
      && Dead(end, st.txs[t].sid)
      && (forall i | |st.rotations| <= i < |end.rotations| :: Elsewhere(end.rotations[i], st.txs[t].sid))
  {
    var st := Run(start, before).value;
    ReachableInv(start, before);
    StepInv(st, Step.Commit(t));
    ContainmentKills(st, t);
    DeadForever(Next(st, Step.Commit(t)), after, st.txs[t].sid);
  }

  // ----- From the presentation of a rotated token -----

  /** Transaction `t` has read a revoked token of family `s`, or is already handling the reuse. */
  predicate Handling(st: State, t: nat, s: Sid) {
    && t in st.txs
    && match st.txs[t]
       case Loaded(_, tok, _) => tok.revoked && tok.session == s
       case Reuse(sid, _) => sid == s
       case SessionKilled(sid) => sid == s
       case Contained(sid) => sid == s
       case _ => false
  }

  predicate EndsTx(step: Step, t: nat) {
    (step.Commit? || step.Abort?) && step.t == t
  }

  /** Until it ends, such a transaction goes on handling the reuse, whatever the others do. */
  lemma HandlingStep(st: State, step: Step, t: nat, s: Sid)
    requires Enabled(st, step) && Handling(st, t, s) && !EndsTx(step, t)
    ensures Handling(Next(st, step), t, s)
  {
  }

  lemma {:induction false} HandlingRun(st: State, steps: seq<Step>, t: nat, s: Sid)
    requires Run(st, steps).Some? && Handling(st, t, s)
    requires forall i | 0 <= i < |steps| :: !EndsTx(steps[i], t)
    ensures Handling(Run(st, steps).value, t, s)
    decreases |steps|
  {
    if steps != [] {
      assert !EndsTx(steps[0], t);
      HandlingStep(st, steps[0], t, s);
      forall i | 0 <= i < |steps[1..]| ensures !EndsTx(steps[1..][i], t) {
        assert steps[1..][i] == steps[i + 1];
      }
      HandlingRun(Next(st, steps[0]), steps[1..], t, s);
    }
  }

  /** Presenting a rotated token that has not been purged is taken for reuse of its family. */
  lemma RotatedTokenIsReuse(start: State, before: seq<Step>, i: nat, t: nat, active: bool)
    requires Initial(start) && Run(start, before).Some?
    requires var st := Run(start, before).value;
      i < |st.rotations| && t !in st.txs && Committed(st.tokens, st.rotations[i].from).Some?
    ensures var st := Run(start, before).value;
      var r := st.rotations[i];
      && Enabled(st, Load(t, r.from)) && Handling(Next(st, Load(t, r.from)), t, r.session)
      && Enabled(Next(st, Load(t, r.from)), Check(t, active))
      && r.session in st.logins
      && Next(Next(st, Load(t, r.from)), Check(t, active)).txs[t] == Reuse(r.session, st.logins[r.session].user)
  {
    ReachableInv(start, before);
    var st := Run(start, before).value;
    var r := st.rotations[i];
    assert Done(st, r) && TokenOK(st, r.from);
  }

  /** `t` presents token `h` in state `st`, commits in `mid`, and `end` is any state after that. */
  ghost predicate Presented(st: State, h: Hash, t: nat, middle: seq<Step>, mid: State, after: seq<Step>, end: State) {
    && Enabled(st, Load(t, h)) && Run(Next(st, Load(t, h)), middle) == Some(mid)
    && (forall j | 0 <= j < |middle| :: !EndsTx(middle[j], t))
    && Enabled(mid, Step.Commit(t)) && Run(Next(mid, Step.Commit(t)), after) == Some(end)
  }

  /**
   * The whole story: a rotated, unpurged token is presented; whatever happens
   * in between, if that transaction commits, its family is over for good.
   */
  lemma RotatedTokenContained(
    start: State, before: seq<Step>, st: State, i: nat, t: nat, middle: seq<Step>, mid: State, after: seq<Step>, end: State)
    requires Initial(start) && Run(start, before) == Some(st)
    requires i < |st.rotations| && Presented(st, st.rotations[i].from, t, middle, mid, after, end)
    ensures Dead(end, st.rotations[i].session) && mid.rotations <= end.rotations
    ensures forall j | |mid.rotations| <= j < |end.rotations| :: Elsewhere(end.rotations[j], st.rotations[i].session)
  {
    var s, loaded := st.rotations[i].session, Next(st, Load(t, st.rotations[i].from));
    RotatedTokenIsReuse(start, before, i, t, true);
    ReachableInv(start, before);
    StepInv(st, Load(t, st.rotations[i].from));
    RunInv(loaded, middle);
    HandlingRun(loaded, middle, t, s);
    StepInv(mid, Step.Commit(t));
    ContainmentKills(mid, t);
    DeadForever(Next(mid, Step.Commit(t)), after, s);
  }
}
