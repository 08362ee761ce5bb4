/** Comparing permission lists by sorting, compacting and testing equality (internal/identity/state.go). */
module PermissionList {

  // ----- Strings in byte order -----

  predicate StrLe(a: string, b: string) {
    a == "" || (b != "" && (a[0] < b[0] || (a[0] == b[0] && StrLe(a[1..], b[1..]))))
  }

  lemma {:induction false} LeTotal(a: string, b: string)
    ensures StrLe(a, b) || StrLe(b, a)
  {
    if a != "" && b != "" {
      LeTotal(a[1..], b[1..]);
    }
  }

  lemma {:induction false} LeAntisymmetric(a: string, b: string)
    requires StrLe(a, b) && StrLe(b, a)
    ensures a == b
  {
    if a != "" && b != "" {
      LeAntisymmetric(a[1..], b[1..]);
      assert a == [a[0]] + a[1..] && b == [b[0]] + b[1..];
    }
  }

  lemma {:induction false} LeTransitive(a: string, b: string, c: string)
    requires StrLe(a, b) && StrLe(b, c)
    ensures StrLe(a, c)
  {
    if a != "" && b != "" && c != "" && a[0] == b[0] == c[0] {
      LeTransitive(a[1..], b[1..], c[1..]);
    }
  }

  // ----- Sort and compact -----

  predicate Below(x: string, s: seq<string>) {
    forall i | 0 <= i < |s| :: StrLe(x, s[i])
  }

  predicate Sorted(s: seq<string>) {
    s == [] || (Below(s[0], s[1..]) && Sorted(s[1..]))
  }

  /** Each element strictly smaller than all that follow. */
  predicate Ascending(s: seq<string>) {
    s == [] || (s[0] !in s[1..] && Below(s[0], s[1..]) && Ascending(s[1..]))
  }

  function Insert(x: string, s: seq<string>): seq<string> {
    if s == [] || StrLe(x, s[0]) then [x] + s else [s[0]] + Insert(x, s[1..])
  }

  /** slices.Sort: insertion stands for any sort, since equal strings are indistinguishable. */
  function Sort(s: seq<string>): seq<string> {
    if s == [] then [] else Insert(s[0], Sort(s[1..]))
  }

  /** slices.Compact: drop an element equal to its successor. */
  function Compact(s: seq<string>): seq<string> {
    if |s| < 2 then s
    else if s[0] == s[1] then Compact(s[1..])
    else [s[0]] + Compact(s[1..])
  }

  function Elements(s: seq<string>): set<string> {
    set x | x in s
  }

  lemma ElementsCons(x: string, s: seq<string>)
    ensures Elements([x] + s) == {x} + Elements(s)
  {
  }

  lemma NoElements(s: seq<string>)
    ensures Elements(s) == {} <==> s == []
  {
    if s != [] { assert s[0] in Elements(s); }
  }

  lemma {:induction false} InsertSorted(x: string, s: seq<string>)
    requires Sorted(s)
    ensures Sorted(Insert(x, s)) && Elements(Insert(x, s)) == {x} + Elements(s)
  {
    if s != [] && StrLe(x, s[0]) {
      PrependSorted(x, s);
    } else if s != [] {
      InsertSorted(x, s[1..]);
      LeTotal(x, s[0]);
      InsertLater(x, s);
    }
  }

  lemma PrependSorted(x: string, s: seq<string>)
    requires Sorted(s) && s != [] && StrLe(x, s[0])
    ensures Sorted([x] + s) && Elements([x] + s) == {x} + Elements(s)
  {
    assert ([x] + s)[1..] == s;
    forall i | 0 <= i < |s| ensures StrLe(x, s[i]) {
      if i > 0 { LeTransitive(x, s[0], s[1..][i - 1]); }
    }
  }

  lemma InsertLater(x: string, s: seq<string>)
    requires Sorted(s) && s != [] && StrLe(s[0], x)
    requires Sorted(Insert(x, s[1..])) && Elements(Insert(x, s[1..])) == {x} + Elements(s[1..])
    ensures Sorted([s[0]] + Insert(x, s[1..])) && Elements([s[0]] + Insert(x, s[1..])) == {x} + Elements(s)
  {
    var rest := Insert(x, s[1..]);
    ElementsCons(s[0], rest);
    ElementsCons(s[0], s[1..]);
    assert s == [s[0]] + s[1..];
    assert ([s[0]] + rest)[1..] == rest;
    forall i | 0 <= i < |rest| ensures StrLe(s[0], rest[i]) {
      assert rest[i] in Elements(rest);
    }
  }

  lemma {:induction false} SortSorts(s: seq<string>)
    ensures Sorted(Sort(s)) && Elements(Sort(s)) == Elements(s)
  {
    if s != [] {
      SortSorts(s[1..]);
      InsertSorted(s[0], Sort(s[1..]));
      ElementsCons(s[0], s[1..]);
      assert s == [s[0]] + s[1..];
    }
  }

  lemma {:induction false} CompactAscends(s: seq<string>)
    requires Sorted(s)
    ensures Ascending(Compact(s)) && Elements(Compact(s)) == Elements(s)
  {
    if |s| >= 2 {
      var rest := Compact(s[1..]);
      CompactAscends(s[1..]);
      ElementsCons(s[0], s[1..]);
      assert s == [s[0]] + s[1..];
      if s[0] == s[1] {
        assert s[1] in s[1..];
      } else {
        ElementsCons(s[0], rest);
        assert ([s[0]] + rest)[1..] == rest;
        forall i | 0 <= i < |rest| ensures StrLe(s[0], rest[i]) && rest[i] != s[0] {
          assert rest[i] in Elements(s[1..]);
          Later(s, rest[i]);
        }
      }
    }
  }

  /** In a sorted list that changes at once, the head does not come back. */
  lemma Later(s: seq<string>, x: string)
    requires Sorted(s) && |s| >= 2 && s[0] != s[1] && x in s[1..]
    ensures StrLe(s[0], x) && x != s[0]
  {
    var i :| 0 <= i < |s[1..]| && s[1..][i] == x;
    if i > 0 && x == s[0] {
      assert s[1..][1..][i - 1] == x;
      LeAntisymmetric(s[0], s[1]);
    }
  }

  lemma {:induction false} AscendingUnique(a: seq<string>, b: seq<string>)
    requires Ascending(a) && Ascending(b) && Elements(a) == Elements(b)
    ensures a == b
  {
    NoElements(a);
    NoElements(b);
    if a != [] && b != [] {
      HeadsMeet(a, b);
      assert a == [a[0]] + a[1..] && b == [b[0]] + b[1..];
      ElementsCons(a[0], a[1..]);
      ElementsCons(b[0], b[1..]);
      assert Elements(a[1..]) == Elements(a) - {a[0]};
      assert Elements(b[1..]) == Elements(b) - {b[0]};
      AscendingUnique(a[1..], b[1..]);
    }
  }

  lemma HeadsMeet(a: seq<string>, b: seq<string>)
    requires a != [] && b != [] && Ascending(a) && Ascending(b) && Elements(a) == Elements(b)
    ensures a[0] == b[0]
  {
    assert a[0] in Elements(b) && b[0] in Elements(a);
    HeadLeast(a, b[0]);
    HeadLeast(b, a[0]);
    LeAntisymmetric(a[0], b[0]);
  }

  lemma HeadLeast(s: seq<string>, x: string)
    requires s != [] && Ascending(s) && x in s
    ensures StrLe(s[0], x)
  {
    LeTotal(s[0], s[0]);
    if x != s[0] {
      var i :| 0 <= i < |s| && s[i] == x;
      assert s[1..][i - 1] == x;
    }
  }

  /** Sort, compact, compare: equal exactly when the two lists hold the same set of names. */
  lemma SameSetExactly(a: seq<string>, b: seq<string>)
    ensures Compact(Sort(a)) == Compact(Sort(b)) <==> Elements(a) == Elements(b)
  {
    SortSorts(a);
    SortSorts(b);
    CompactAscends(Sort(a));
    CompactAscends(Sort(b));
    if Elements(a) == Elements(b) {
      AscendingUnique(Compact(Sort(a)), Compact(Sort(b)));
    }
  }
}
