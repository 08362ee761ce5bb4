/** Purges run as a loop of LIMIT-bounded DELETE statements (internal/repositories/batched_delete.go). */
module BatchedDelete {

  /** One DELETE ... LIMIT statement removes that many matching rows, or all if there are fewer. */
  method DeleteSome(matching: set<string>, limit: nat) returns (victims: set<string>)
    ensures victims <= matching
    ensures |victims| == if |matching| < limit then |matching| else limit
  {
    victims := {};
    var rest := matching;
    while rest != {} && |victims| < limit
      invariant victims !! rest && victims + rest == matching && |victims| <= limit
      invariant |victims| + |rest| == |matching|
      decreases rest
    {
      var row :| row in rest;
      rest := rest - {row};
      victims := victims + {row};
    }
  }

  lemma SplitCount(all: set<string>, part: set<string>)
    requires part <= all
    ensures |all - part| + |part| == |all|
  {
    assert (all - part) + part == all;
  }

  /**
   * Whatever rows each statement happens to pick, the loop ends with exactly the
   * matching rows gone, and reports how many there were.
   */
  method DeleteMatching(table: set<string>, matching: set<string>, batch: nat) returns (rest: set<string>, total: nat)
    requires matching <= table && batch > 0
    ensures rest == table - matching
    ensures total == |matching| && total + |rest| == |table|
  {
    SplitCount(table, matching);
    rest, total := table, 0;
    var left := matching;
    while true
      invariant left <= matching && rest == table - (matching - left) && total == |matching| - |left|
      decreases left
    {
      var victims := DeleteSome(left, batch);
      ghost var before := left;
      rest := rest - victims;
      left := left - victims;
      SplitCount(before, victims);
      total := total + |victims|;
      if |victims| < batch {
        return;
      }
    }
  }

  datatype Row = Row(revoked: bool, expiresAt: int)

  /** PurgeExpired of the refresh tokens: two streams of batches, expired rows first, then revoked ones. */
  method PurgeExpired(rows: map<string, Row>, cutoff: int, batch: nat) returns (kept: set<string>, removed: nat)
    requires batch > 0
    ensures kept == set h | h in rows && !rows[h].revoked && rows[h].expiresAt >= cutoff
    ensures removed == |rows.Keys| - |kept|
  {
    var expired := set h | h in rows && rows[h].expiresAt < cutoff;
    var rest, first := DeleteMatching(rows.Keys, expired, batch);
    var revoked := set h | h in rest && rows[h].revoked;
    var second: nat;
    kept, second := DeleteMatching(rest, revoked, batch);
    removed := first + second;
  }
}
