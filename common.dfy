/**
 * Shared vocabulary of the model: optional values, calendar days and times of day,
 * Python truthiness, and the row order of a table scan.
 */
module Common {

  datatype Option<+T> = None | Some(value: T) {
    /** Python's `x or default` for a value that is only falsy when absent. */
    function GetOr(default: T): T {
      if Some? then value else default
    }
  }

  /** A calendar day as Python's `date.toordinal()` numbers it: 0001-01-01 is day 1. */
  type Date = int

  /** A time of day in whole minutes after midnight. */
  type Minute = m: int | 0 <= m < 1440

  const MinutesPerDay: int := 1440

  /** A reading of the wall clock (`datetime.utcnow()`), supplied by the caller. */
  type Instant = int

  /** Python truthiness of an optional string: `None` and `""` are falsy. */
  predicate Filled(s: Option<string>) {
    s.Some? && s.value != ""
  }

  /** Python truthiness of an optional integer: `None` and `0` are falsy. */
  predicate NonZero(n: Option<int>) {
    n.Some? && n.value != 0
  }

  /** Python's `given or previous` on optional integers. */
  function OrInt(given: Option<int>, previous: Option<int>): (r: Option<int>)
    ensures NonZero(given) ==> r == given
    ensures !NonZero(given) ==> r == previous
  {
    if NonZero(given) then given else previous
  }

  /** Python's `given or previous` on optional strings. */
  function OrStr(given: Option<string>, previous: Option<string>): (r: Option<string>)
    ensures Filled(given) ==> r == given
    ensures !Filled(given) ==> r == previous
  {
    if Filled(given) then given else previous
  }

  /**
   * The keys of `m` below `n` whose rows satisfy `p`, in ascending order: a
   * table scan with a WHERE clause, each matching row exactly once.
   */
  function Select<T>(m: map<nat, T>, n: nat, p: nat -> bool): (r: seq<nat>)
    ensures forall k :: k in r <==> k in m && k < n && p(k)
    ensures forall i, j :: 0 <= i < j < |r| ==> r[i] < r[j]
  {
    if n == 0 then []
    else
      var prefix := Select(m, n - 1, p);
      assert forall i :: 0 <= i < |prefix| ==> prefix[i] in prefix;
      prefix + (if n - 1 in m && p(n - 1) then [n - 1] else [])
  }

  /** The condition that keeps every row. */
  function Everything(): nat -> bool {
    _ => true
  }

  /** Raising the bound above every key does not change the scan. */
  lemma {:induction false} SelectBound<T>(m: map<nat, T>, p: nat -> bool, n1: nat, n2: nat)
    requires forall k :: k in m ==> k < n1
    requires n1 <= n2
    ensures Select(m, n1, p) == Select(m, n2, p)
    decreases n2
  {
    if n2 > n1 {
      SelectBound(m, p, n1, n2 - 1);
      assert n2 - 1 !in m;
    }
  }

  /**
   * Two tables with the same keys, scanned with conditions that agree on
   * those keys, give the same rows.
   */
  lemma {:induction false} SelectCongruent<T, U>(m1: map<nat, T>, m2: map<nat, U>, n: nat, p: nat -> bool, q: nat -> bool)
    requires m1.Keys == m2.Keys
    requires forall k :: k in m1 && k < n ==> p(k) == q(k)
    ensures Select(m1, n, p) == Select(m2, n, q)
  {
    if n > 0 {
      SelectCongruent(m1, m2, n - 1, p, q);
      assert (n - 1 in m1 && p(n - 1)) == (n - 1 in m2 && q(n - 1));
    }
  }

  /** A weaker condition selects at least as many rows. */
  lemma {:induction false} SelectMonotone<T>(m: map<nat, T>, n: nat, p: nat -> bool, q: nat -> bool)
    requires forall k :: k in m && k < n && p(k) ==> q(k)
    ensures |Select(m, n, p)| <= |Select(m, n, q)|
  {
    if n > 0 {
      SelectMonotone(m, n - 1, p, q);
    }
  }

  /** A condition and its negation split the scan of a table in two. */
  lemma {:induction false} SelectPartition<T>(m: map<nat, T>, n: nat, p: nat -> bool, q: nat -> bool)
    requires forall k :: k in m && k < n ==> q(k) == !p(k)
    ensures |Select(m, n, p)| + |Select(m, n, q)| == |Select(m, n, Everything())|
  {
    if n > 0 {
      SelectPartition(m, n - 1, p, q);
    }
  }

  /** The elements of `s` that satisfy `p`, in their original order (a SQL WHERE clause). */
  function Filter(s: seq<nat>, p: nat -> bool): (r: seq<nat>)
    ensures forall x :: multiset(r)[x] == if p(x) then multiset(s)[x] else 0
    ensures forall i :: 0 <= i < |r| ==> r[i] in s && p(r[i])
    ensures |r| <= |s|
  {
    if s == [] then []
    else
      var rest := Filter(s[1..], p);
      assert s == [s[0]] + s[1..];
      (if p(s[0]) then [s[0]] else []) + rest
  }

  /** Filtering with two predicates that agree on every element gives the same rows. */
  lemma {:induction false} FilterCongruent(s: seq<nat>, p: nat -> bool, q: nat -> bool)
    requires forall i :: 0 <= i < |s| ==> p(s[i]) == q(s[i])
    ensures Filter(s, p) == Filter(s, q)
  {
    if s != [] {
      FilterCongruent(s[1..], p, q);
    }
  }

  /** The first element of `s` that satisfies `p` (a query's `.first()`). */
  function FirstMatch(s: seq<nat>, p: nat -> bool): (r: Option<nat>)
    ensures r.None? <==> forall i :: 0 <= i < |s| ==> !p(s[i])
    ensures r.Some? ==> exists i :: 0 <= i < |s| && s[i] == r.value && p(s[i]) && forall j :: 0 <= j < i ==> !p(s[j])
  {
    if s == [] then None
    else if p(s[0]) then Some(s[0])
    else
      var r := FirstMatch(s[1..], p);
      assert forall i :: 1 <= i < |s| ==> s[i] == s[1..][i - 1];
      r
  }

  /** A query's `.first()` on two predicates that agree on every element. */
  lemma {:induction false} FirstMatchCongruent(s: seq<nat>, p: nat -> bool, q: nat -> bool)
    requires forall i :: 0 <= i < |s| ==> p(s[i]) == q(s[i])
    ensures FirstMatch(s, p) == FirstMatch(s, q)
  {
    if s != [] && !p(s[0]) {
      FirstMatchCongruent(s[1..], p, q);
    }
  }

  /** A sequence without members is empty. */
  lemma NoMembers<T>(s: seq<T>)
    ensures (forall x :: x !in s) ==> s == []
  {
    if s != [] {
      assert s[0] in s;
    }
  }

  /** Python's `s[:n]` for `n >= 0`. */
  function Take<T>(s: seq<T>, n: nat): (r: seq<T>)
    ensures |r| == if |s| <= n then |s| else n
    ensures r <= s
  {
    if |s| <= n then s else s[..n]
  }
}
