/**
 * A table under row locks: an UPDATE or INSERT changes the row at once and keeps
 * its committed image until the writing transaction ends.
 */
module RowLocks {
  import opened Common

  /** `before` is the committed image, None for a row the transaction inserted. */
  datatype Lock<R> = Lock(tx: nat, before: Option<R>)

  datatype Table<K, R> = Table(rows: map<K, R>, locks: map<K, Lock<R>>)

  function Current<K, R>(db: Table<K, R>, k: K): Option<R> {
    if k in db.rows then Some(db.rows[k]) else None
  }

  /** What a consistent read of another transaction sees. */
  function Committed<K, R>(db: Table<K, R>, k: K): Option<R> {
    if k in db.locks then db.locks[k].before else Current(db, k)
  }

  predicate LockedBy<K, R>(db: Table<K, R>, k: K, t: nat) {
    k in db.locks && db.locks[k].tx == t
  }

  /** A locking statement of `t` need not wait for row `k`. */
  predicate Free<K, R>(db: Table<K, R>, k: K, t: nat) {
    k in db.locks ==> db.locks[k].tx == t
  }

  /** One statement of `t` that inserts or updates the given rows. */
  function Write<K, R>(db: Table<K, R>, t: nat, written: map<K, R>): Table<K, R> {
    Table(db.rows + written,
          db.locks + map k | k in written && k !in db.locks :: Lock(t, Current(db, k)))
  }

  function Commit<K, R>(db: Table<K, R>, t: nat): Table<K, R> {
    db.(locks := map k | k in db.locks && db.locks[k].tx != t :: db.locks[k])
  }

  function Undone<K, R>(db: Table<K, R>, t: nat, k: K): Option<R> {
    if LockedBy(db, k, t) then db.locks[k].before else Current(db, k)
  }

  function Abort<K, R>(db: Table<K, R>, t: nat): Table<K, R> {
    Commit(db, t).(rows := map k | k in db.rows.Keys + db.locks.Keys && Undone(db, t, k).Some? :: Undone(db, t, k).value)
  }

  // ----- What each operation does to the two views of a row -----

  lemma WriteViews<K, R>(db: Table<K, R>, t: nat, written: map<K, R>, j: K)
    requires j in written ==> Free(db, j, t)
    ensures var db' := Write(db, t, written);
      && Current(db', j) == (if j in written then Some(written[j]) else Current(db, j))
      && Committed(db', j) == Committed(db, j)
      && (forall u: nat :: LockedBy(db', j, u) <==> LockedBy(db, j, u) || (j in written && u == t))
  {
  }

  lemma CommitViews<K, R>(db: Table<K, R>, t: nat, j: K)
    ensures var db' := Commit(db, t);
      && Current(db', j) == Current(db, j)
      && Committed(db', j) == (if LockedBy(db, j, t) then Current(db, j) else Committed(db, j))
      && (forall u: nat :: LockedBy(db', j, u) <==> LockedBy(db, j, u) && u != t)
  {
  }

  /** Rolling back is invisible to every other transaction. */
  lemma AbortViews<K, R>(db: Table<K, R>, t: nat, j: K)
    ensures var db' := Abort(db, t);
      && Current(db', j) == (if LockedBy(db, j, t) then Committed(db, j) else Current(db, j))
      && Committed(db', j) == Committed(db, j)
      && (forall u: nat :: LockedBy(db', j, u) <==> LockedBy(db, j, u) && u != t)
  {
    assert Undone(db, t, j).Some? ==> j in db.rows.Keys + db.locks.Keys;
  }

  // ----- When `t` holds every lock -----

  predicate Sole<K, R>(db: Table<K, R>, t: nat) {
    forall k | k in db.locks :: LockedBy(db, k, t)
  }

  lemma CommitSole<K, R>(db: Table<K, R>, t: nat)
    requires Sole(db, t)
    ensures Commit(db, t) == Table(db.rows, map[])
  {
    assert forall k | k in db.locks :: LockedBy(db, k, t);
  }

  predicate Unwinds<K, R(==)>(db: Table<K, R>, base: map<K, R>, k: K) {
    Committed(db, k) == if k in base then Some(base[k]) else None
  }

  lemma AbortSole<K, R>(db: Table<K, R>, t: nat, base: map<K, R>)
    requires Sole(db, t) && (forall k | k in db.rows || k in db.locks || k in base :: Unwinds(db, base, k))
    ensures Abort(db, t) == Table(base, map[])
  {
    CommitSole(db, t);
    forall k ensures Current(Abort(db, t), k) == if k in base then Some(base[k]) else None {
      AbortViews(db, t, k);
      if k in db.rows || k in db.locks || k in base { assert Unwinds(db, base, k); }
    }
    SameRows(Abort(db, t).rows, base);
  }

  lemma SameRows<K, R>(a: map<K, R>, b: map<K, R>)
    requires forall k :: Current(Table(a, map[]), k) == if k in b then Some(b[k]) else None
    ensures a == b
  {
    forall k ensures (k in a <==> k in b) && (k in a ==> a[k] == b[k]) {
      assert Current(Table(a, map[]), k) == if k in b then Some(b[k]) else None;
    }
  }
}
