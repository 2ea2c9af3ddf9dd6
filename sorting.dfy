/**
 * The `ORDER BY` of the core's queries: a stable insertion sort of row ids
 * under a caller-supplied ordering, and the code-point order on strings that
 * SQLite's default collation applies to names.
 */
module Sorting {

  /** `le` orders every pair of rows and is transitive. */
  ghost predicate TotalPreorder(le: (nat, nat) -> bool) {
    (forall a, b :: le(a, b) || le(b, a))
    && (forall a, b, c :: le(a, b) && le(b, c) ==> le(a, c))
  }

  /** Every row comes no later than each row after it. */
  ghost predicate Sorted(s: seq<nat>, le: (nat, nat) -> bool) {
    forall i, j :: 0 <= i < j < |s| ==> le(s[i], s[j])
  }

  /** `x` placed before the first row it does not come after. */
  function Insert(x: nat, s: seq<nat>, le: (nat, nat) -> bool): (r: seq<nat>)
    ensures multiset(r) == multiset(s) + multiset{x}
    ensures |r| == |s| + 1
  {
    if s == [] || le(x, s[0]) then [x] + s
    else
      assert s == [s[0]] + s[1..];
      [s[0]] + Insert(x, s[1..], le)
  }

  /** The rows of `s` reordered under `le`; rows that tie keep their relative order. */
  function SortBy(s: seq<nat>, le: (nat, nat) -> bool): (r: seq<nat>)
    ensures multiset(r) == multiset(s)
    ensures |r| == |s|
  {
    if s == [] then []
    else
      assert s == [s[0]] + s[1..];
      Insert(s[0], SortBy(s[1..], le), le)
  }

  lemma {:induction false} InsertSorted(x: nat, s: seq<nat>, le: (nat, nat) -> bool)
    requires TotalPreorder(le)
    requires Sorted(s, le)
    ensures Sorted(Insert(x, s, le), le)
  {
    if s != [] && !le(x, s[0]) {
      InsertSorted(x, s[1..], le);
      var r := Insert(x, s, le);
      var tail := Insert(x, s[1..], le);
      assert r == [s[0]] + tail;
      assert le(s[0], x);
      forall j | 0 <= j < |tail|
        ensures le(s[0], tail[j])
      {
        assert tail[j] in multiset(tail);
        assert tail[j] == x || tail[j] in multiset(s[1..]);
        if tail[j] != x {
          var k :| 0 <= k < |s[1..]| && s[1..][k] == tail[j];
          assert s[k + 1] == tail[j];
        }
      }
    }
  }

  /** The sort returns its rows in order. */
  lemma {:induction false} SortBySorted(s: seq<nat>, le: (nat, nat) -> bool)
    requires TotalPreorder(le)
    ensures Sorted(SortBy(s, le), le)
  {
    if s != [] {
      SortBySorted(s[1..], le);
      InsertSorted(s[0], SortBy(s[1..], le), le);
    }
  }

  /** Inserting under two orderings that agree on every pair gives the same rows. */
  lemma {:induction false} InsertCongruent(x: nat, s: seq<nat>, le1: (nat, nat) -> bool, le2: (nat, nat) -> bool)
    requires forall a, b :: le1(a, b) == le2(a, b)
    ensures Insert(x, s, le1) == Insert(x, s, le2)
  {
    if s != [] && !le1(x, s[0]) {
      InsertCongruent(x, s[1..], le1, le2);
    }
  }

  /** Sorting under two orderings that agree on every pair gives the same rows. */
  lemma {:induction false} SortByCongruent(s: seq<nat>, le1: (nat, nat) -> bool, le2: (nat, nat) -> bool)
    requires forall a, b :: le1(a, b) == le2(a, b)
    ensures SortBy(s, le1) == SortBy(s, le2)
  {
    if s != [] {
      SortByCongruent(s[1..], le1, le2);
      InsertCongruent(s[0], SortBy(s[1..], le1), le1, le2);
    }
  }

  /** Lexicographic order on strings by code point (SQLite's BINARY collation). */
  predicate StrLe(a: string, b: string) {
    a == [] || (b != [] && (a[0] < b[0] || (a[0] == b[0] && StrLe(a[1..], b[1..]))))
  }

  lemma {:induction false} StrLeTotal(a: string, b: string)
    ensures StrLe(a, b) || StrLe(b, a)
  {
    if a != [] && b != [] && a[0] == b[0] {
      StrLeTotal(a[1..], b[1..]);
    }
  }

  lemma {:induction false} StrLeTransitive(a: string, b: string, c: string)
    requires StrLe(a, b) && StrLe(b, c)
    ensures StrLe(a, c)
  {
    if a != [] && b != [] && c != [] && a[0] == b[0] && b[0] == c[0] {
      StrLeTransitive(a[1..], b[1..], c[1..]);
    }
  }

  lemma {:induction false} StrLeAntisymmetric(a: string, b: string)
    requires StrLe(a, b) && StrLe(b, a)
    ensures a == b
  {
    if a != [] {
      StrLeAntisymmetric(a[1..], b[1..]);
      assert a == [a[0]] + a[1..];
      assert b == [b[0]] + b[1..];
    }
  }

  /** `ORDER BY major, minor` on two string columns. */
  predicate PairLe(major1: string, minor1: string, major2: string, minor2: string) {
    if major1 == major2 then StrLe(minor1, minor2) else StrLe(major1, major2)
  }

  lemma PairLeTotal(major1: string, minor1: string, major2: string, minor2: string)
    ensures PairLe(major1, minor1, major2, minor2) || PairLe(major2, minor2, major1, minor1)
  {
    StrLeTotal(minor1, minor2);
    StrLeTotal(major1, major2);
  }

  lemma PairLeTransitive(a1: string, a2: string, b1: string, b2: string, c1: string, c2: string)
    requires PairLe(a1, a2, b1, b2) && PairLe(b1, b2, c1, c2)
    ensures PairLe(a1, a2, c1, c2)
  {
    if a1 == b1 && b1 == c1 {
      StrLeTransitive(a2, b2, c2);
    } else if a1 != b1 && b1 != c1 && a1 == c1 {
      StrLeAntisymmetric(a1, b1);
    } else if a1 != b1 && b1 != c1 {
      StrLeTransitive(a1, b1, c1);
    }
  }
}
