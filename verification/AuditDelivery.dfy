/** Fencing, single delivery and bounded retries over whole runs of the pipeline. */
module AuditDelivery {
  import opened Common
  import opened AuditEvent
  import opened AuditPipeline
  import opened AuditInvariant

  // ----- Fencing -----

  /** The claim's token was drawn, and its row no longer carries it. */
  predicate Fenced(w: World, c: Claim) {
    && c.leaseToken in w.tokens
    && (c.eventID in w.db.outbox ==> w.db.outbox[c.eventID].leaseToken != c.leaseToken)
  }

  lemma FencedStable(env: Env, w: World, s: Step, c: Claim)
    requires Inv(env, w) && Enabled(env, w, s) && Fenced(w, c)
    ensures Fenced(Next(env, w, s), c)
  {
    if s.DoDeliver? { DeliverEffect(env, w, s.keys, s.claim, s.now); }
  }

  lemma {:induction false} FencedForever(env: Env, run: seq<World>, steps: seq<Step>, i: nat, j: nat, c: Claim)
    requires CollisionFree(env.mac) && IsRun(env, run, steps) && Initial(run[0])
    requires i <= j < |run| && Fenced(run[i], c)
    ensures Fenced(run[j], c)
    decreases j - i
  {
    if i < j {
      ReachableInv(env, run, steps, i);
      assert StepAt(env, run, steps, i);
      FencedStable(env, run[i], steps[i], c);
      FencedForever(env, run, steps, i + 1, j, c);
    }
  }

  /**
   * Once a row has been claimed again, every worker that held it before is
   * fenced for good: none of its later acknowledgements or failures changes the
   * database, whatever happened in between.
   */
  lemma ReclaimFences(env: Env, run: seq<World>, steps: seq<Step>, i: nat, j: nat, c: Claim)
    requires CollisionFree(env.mac) && IsRun(env, run, steps) && Initial(run[0])
    requires i < j < |steps| && steps[i].DoClaim? && steps[i].id == c.eventID
    requires c.leaseToken in run[i].tokens
    ensures steps[j].DoDeliver? && steps[j].claim == c ==> run[j + 1] == run[j]
    ensures steps[j].DoFail? && steps[j].claim == c ==> run[j + 1] == run[j]
  {
    assert StepAt(env, run, steps, i) && StepAt(env, run, steps, j);
    assert Fenced(run[i + 1], c);
    FencedForever(env, run, steps, i + 1, j, c);
  }

  // ----- Delivered exactly once -----

  predicate IsDelivered(w: World, id: string) {
    id in w.db.outbox && w.db.outbox[id].phase == Delivered
  }

  lemma DeliveredStable(env: Env, w: World, s: Step, id: string)
    requires Inv(env, w) && Enabled(env, w, s) && IsDelivered(w, id)
    ensures IsDelivered(Next(env, w, s), id)
  {
    if s.DoDeliver? { DeliverEffect(env, w, s.keys, s.claim, s.now); }
  }

  lemma {:induction false} DeliveredForever(env: Env, run: seq<World>, steps: seq<Step>, i: nat, j: nat, id: string)
    requires CollisionFree(env.mac) && IsRun(env, run, steps) && Initial(run[0])
    requires i <= j < |run| && IsDelivered(run[i], id)
    ensures IsDelivered(run[j], id)
    decreases j - i
  {
    if i < j {
      ReachableInv(env, run, steps, i);
      assert StepAt(env, run, steps, i);
      DeliveredStable(env, run[i], steps[i], id);
      DeliveredForever(env, run, steps, i + 1, j, id);
    }
  }

  /**
   * At most one Deliver of an event ever takes effect. In particular a replayed
   * delivery never reinserts an event that has been purged since.
   */
  lemma DeliveredOnce(env: Env, run: seq<World>, steps: seq<Step>, i: nat, j: nat)
    requires CollisionFree(env.mac) && IsRun(env, run, steps) && Initial(run[0])
    requires i < j < |steps| && steps[i].DoDeliver? && steps[j].DoDeliver?
    requires steps[i].claim.eventID == steps[j].claim.eventID
    requires run[i + 1] != run[i]
    ensures run[j + 1] == run[j]
  {
    assert StepAt(env, run, steps, i) && StepAt(env, run, steps, j);
    ReachableInv(env, run, steps, i);
    DeliverEffect(env, run[i], steps[i].keys, steps[i].claim, steps[i].now);
    DeliveredForever(env, run, steps, i + 1, j, steps[i].claim.eventID);
  }

  // ----- Bounded hand-outs of one event -----

  function Attempts(w: World, id: string): nat {
    if id in w.db.outbox then w.db.outbox[id].attempts else 0
  }

  /** Step `i` handed event `id` to a worker. */
  ghost predicate HandsOut(run: seq<World>, steps: seq<Step>, i: nat, id: string)
    requires i < |steps| && |run| == |steps| + 1
  {
    steps[i].DoClaim? && steps[i].id == id && id in run[i + 1].db.outbox && run[i + 1].db.outbox[id].phase == Leased
  }

  ghost function HandOuts(run: seq<World>, steps: seq<Step>, i: nat, j: nat, id: string): nat
    requires i <= j <= |steps| && |run| == |steps| + 1
    decreases j - i
  {
    if i == j then 0 else (if HandsOut(run, steps, i, id) then 1 else 0) + HandOuts(run, steps, i + 1, j, id)
  }

  lemma AttemptsStep(env: Env, w: World, s: Step, id: string)
    requires Inv(env, w) && Enabled(env, w, s) && !(s.DoRequeue? && s.id == id)
    ensures Attempts(Next(env, w, s), id) == Attempts(w, id) + (if s.DoClaim? && s.id == id then 1 else 0)
  {
    if s.DoDeliver? { DeliverEffect(env, w, s.keys, s.claim, s.now); }
  }

  /** Between two requeues an event is handed out at most eight times. */
  lemma {:induction false} HandOutsBounded(env: Env, run: seq<World>, steps: seq<Step>, i: nat, j: nat, id: string)
    requires CollisionFree(env.mac) && IsRun(env, run, steps) && Initial(run[0]) && i <= j <= |steps|
    requires forall m | i <= m < j :: !(steps[m].DoRequeue? && steps[m].id == id)
    ensures HandOuts(run, steps, i, j, id) <= MAX_ATTEMPTS
    ensures Attempts(run[i], id) <= MAX_ATTEMPTS ==> HandOuts(run, steps, i, j, id) <= MAX_ATTEMPTS - Attempts(run[i], id)
    ensures Attempts(run[i], id) > MAX_ATTEMPTS ==> HandOuts(run, steps, i, j, id) == 0
    decreases j - i
  {
    if i < j {
      ReachableInv(env, run, steps, i);
      assert StepAt(env, run, steps, i);
      AttemptsStep(env, run[i], steps[i], id);
      HandOutsBounded(env, run, steps, i + 1, j, id);
      if id in run[i].db.outbox { assert RowOwned(run[i], id); }
    }
  }

  // ----- Bounded claims in total -----

  /** How many more claims a row can take before it is dead. */
  function Allowance(row: OutboxRow): nat {
    if row.phase == Delivered || row.attempts > MAX_ATTEMPTS then 0 else MAX_ATTEMPTS + 1 - row.attempts
  }

  ghost function Budget(outbox: map<string, OutboxRow>): nat {
    if outbox == map[] then 0
    else var id :| id in outbox; Allowance(outbox[id]) + Budget(outbox - {id})
  }

  lemma {:induction false} BudgetSplit(outbox: map<string, OutboxRow>, id: string)
    requires id in outbox
    ensures Budget(outbox) == Allowance(outbox[id]) + Budget(outbox - {id})
    decreases |outbox|
  {
    var first :| first in outbox && Budget(outbox) == Allowance(outbox[first]) + Budget(outbox - {first});
    if first != id {
      BudgetSplit(outbox - {first}, id);
      BudgetSplit(outbox - {id}, first);
      assert outbox - {first} - {id} == outbox - {id} - {first};
    }
  }

  lemma BudgetUpdate(outbox: map<string, OutboxRow>, id: string, row: OutboxRow)
    requires id in outbox
    ensures Budget(outbox[id := row]) + Allowance(outbox[id]) == Budget(outbox) + Allowance(row)
  {
    BudgetSplit(outbox, id);
    BudgetSplit(outbox[id := row], id);
    assert outbox[id := row] - {id} == outbox - {id};
  }

  function Backlog(outbox: map<string, OutboxRow>): set<string> {
    set id | id in outbox && outbox[id].phase != Delivered
  }

  lemma {:induction false} BudgetBound(outbox: map<string, OutboxRow>)
    ensures Budget(outbox) <= 9 * |Backlog(outbox)|
    decreases |outbox|
  {
    if outbox != map[] {
      var id :| id in outbox;
      BudgetSplit(outbox, id);
      BudgetBound(outbox - {id});
      var all, rest := Backlog(outbox), Backlog(outbox - {id});
      assert rest == all - {id};
      if id in all {
        assert |rest| == |all| - 1;
        assert Budget(outbox) <= 9 + 9 * |rest|;
      } else {
        assert rest == all;
      }
    }
  }

  function Claims(steps: seq<Step>, i: nat, j: nat): nat
    requires i <= j <= |steps|
    decreases j - i
  {
    if i == j then 0 else (if steps[i].DoClaim? then 1 else 0) + Claims(steps, i + 1, j)
  }

  lemma BudgetStep(env: Env, w: World, s: Step)
    requires Inv(env, w) && Enabled(env, w, s) && !s.DoRequeue? && !s.DoAdmit?
    ensures Budget(Next(env, w, s).db.outbox) + (if s.DoClaim? then 1 else 0) <= Budget(w.db.outbox)
  {
    match s
    case DoClaim(id, token, now) =>
      assert RowOwned(w, id);
      BudgetUpdate(w.db.outbox, id, Claimed(w.db.outbox[id], token, now));
    case DoDeliver(k, c, now) =>
      DeliverEffect(env, w, k, c, now);
      var db' := Deliver(env.mac, k, w.db, c, now).db;
      if db' != w.db { BudgetUpdate(w.db.outbox, c.eventID, db'.outbox[c.eventID]); }
    case DoFail(c, now) =>
      if HoldsLease(w.db, c) { BudgetUpdate(w.db.outbox, c.eventID, FailClaim(w.db, c, now).outbox[c.eventID]); }
    case _ =>
  }

  /**
   * Without new admissions or requeues, the whole fleet of workers makes at most
   * nine claims per undelivered row: eight hand-outs and the one that buries it.
   */
  lemma {:induction false} ClaimsBounded(env: Env, run: seq<World>, steps: seq<Step>, i: nat, j: nat)
    requires CollisionFree(env.mac) && IsRun(env, run, steps) && Initial(run[0]) && i <= j <= |steps|
    requires forall m | i <= m < j :: !steps[m].DoAdmit? && !steps[m].DoRequeue?
    ensures Claims(steps, i, j) + Budget(run[j].db.outbox) <= Budget(run[i].db.outbox)
    ensures Claims(steps, i, j) <= 9 * |Backlog(run[i].db.outbox)|
    decreases j - i
  {
    BudgetBound(run[i].db.outbox);
    if i < j {
      ReachableInv(env, run, steps, i);
      assert StepAt(env, run, steps, i);
      BudgetStep(env, run[i], steps[i]);
      ClaimsBounded(env, run, steps, i + 1, j);
    }
  }

  // ----- One dispatch iteration -----

  lemma ClaimStep(env: Env, w: World, id: string, token: string, now: int)
    requires CollisionFree(env.mac) && Inv(env, w) && Enabled(env, w, DoClaim(id, token, now))
    ensures Inv(env, World(TakeClaim(w.db, id, token, now), w.admitted, w.tokens + {token}))
    ensures Backlog(TakeClaim(w.db, id, token, now).outbox) == Backlog(w.db.outbox)
    ensures id in Backlog(w.db.outbox) && w.db.outbox[id].attempts <= MAX_ATTEMPTS
  {
    assert RowOwned(w, id);
    StepInv(env, w, DoClaim(id, token, now));
  }

  /** Delivering a held claim takes exactly that event off the backlog, or fails and changes nothing. */
  lemma DeliverStep(env: Env, w: World, k: Keys, c: Claim, now: int)
    requires CollisionFree(env.mac) && Inv(env, w) && Trusted(env, k) && HoldsLease(w.db, c)
    ensures var out := Deliver(env.mac, k, w.db, c, now);
      && Inv(env, w.(db := out.db))
      && c.eventID in Backlog(w.db.outbox)
      && (out.error.None? ==>
            && Backlog(out.db.outbox) == Backlog(w.db.outbox) - {c.eventID}
            && out.db.outbox.Keys == w.db.outbox.Keys && out.db.outbox[c.eventID].phase == Delivered
            && out.db.outbox == w.db.outbox[c.eventID := out.db.outbox[c.eventID]])
      && (out.error.Some? ==> out.db == w.db)
  {
    StepInv(env, w, DoDeliver(k, c, now));
    DeliverEffect(env, w, k, c, now);
  }

  lemma FailStep(env: Env, w: World, c: Claim, now: int)
    requires CollisionFree(env.mac) && Inv(env, w)
    ensures Inv(env, w.(db := FailClaim(w.db, c, now)))
    ensures Backlog(FailClaim(w.db, c, now).outbox) == Backlog(w.db.outbox)
  {
    StepInv(env, w, DoFail(c, now));
  }
}
