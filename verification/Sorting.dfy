/**
 The orders the services sort by, and what a sort determines.

 Go's sort and SQL's ORDER BY are library code; what matters to their callers is
 that a strictly ordered arrangement of the same elements is unique, so any
 correct sort gives the result of the insertion sort below.
 */
module Sorting {

  ghost predicate StrictOrder<T(!new)>(before: (T, T) -> bool) {
    && (forall a :: !before(a, a))
    && (forall a, b, c :: before(a, b) && before(b, c) ==> before(a, c))
  }

  /** Any two elements at different places are ordered one way or the other. */
  ghost predicate Comparable<T(!new)>(before: (T, T) -> bool, xs: seq<T>) {
    forall i, j :: 0 <= i < j < |xs| ==> before(xs[i], xs[j]) || before(xs[j], xs[i])
  }

  ghost predicate Sorted<T(!new)>(before: (T, T) -> bool, xs: seq<T>) {
    forall i, j :: 0 <= i < j < |xs| ==> before(xs[i], xs[j])
  }

  function Insert<T>(before: (T, T) -> bool, x: T, xs: seq<T>): seq<T> {
    if xs == [] || before(x, xs[0]) then [x] + xs else [xs[0]] + Insert(before, x, xs[1..])
  }

  function Sort<T>(before: (T, T) -> bool, xs: seq<T>): seq<T> {
    if xs == [] then [] else Insert(before, xs[0], Sort(before, xs[1..]))
  }

  lemma {:induction false} InsertPermutes<T>(before: (T, T) -> bool, x: T, xs: seq<T>)
    ensures multiset(Insert(before, x, xs)) == multiset{x} + multiset(xs)
  {
    if xs != [] && !before(x, xs[0]) {
      InsertPermutes(before, x, xs[1..]);
      assert xs == [xs[0]] + xs[1..];
    }
  }

  lemma {:induction false} SortPermutes<T>(before: (T, T) -> bool, xs: seq<T>)
    ensures multiset(Sort(before, xs)) == multiset(xs)
  {
    if xs != [] {
      SortPermutes(before, xs[1..]);
      InsertPermutes(before, xs[0], Sort(before, xs[1..]));
      assert xs == [xs[0]] + xs[1..];
    }
  }

  lemma SameMembers<T>(xs: seq<T>, ys: seq<T>)
    requires multiset(xs) == multiset(ys)
    ensures |xs| == |ys|
    ensures forall x :: x in xs <==> x in ys
  {
    assert |multiset(xs)| == |xs| && |multiset(ys)| == |ys|;
    forall x ensures x in xs <==> x in ys {
      assert x in xs <==> x in multiset(xs);
    }
  }

  lemma {:induction false} InsertSorts<T(!new)>(before: (T, T) -> bool, x: T, xs: seq<T>)
    requires StrictOrder(before) && Sorted(before, xs)
    requires forall y :: y in xs ==> before(x, y) || before(y, x)
    ensures Sorted(before, Insert(before, x, xs))
  {
    if xs != [] && !before(x, xs[0]) {
      InsertSorts(before, x, xs[1..]);
      var rest := Insert(before, x, xs[1..]);
      InsertPermutes(before, x, xs[1..]);
      forall y | y in rest ensures before(xs[0], y) {
        assert y in multiset(rest);
        assert y == x || y in xs[1..];
      }
    } else if xs != [] {
      forall y | y in xs ensures before(x, y) {
        assert before(x, xs[0]);
      }
    }
  }

  lemma {:induction false} SortSorts<T(!new)>(before: (T, T) -> bool, xs: seq<T>)
    requires StrictOrder(before) && Comparable(before, xs)
    ensures Sorted(before, Sort(before, xs))
  {
    if xs != [] {
      assert Comparable(before, xs[1..]);
      SortSorts(before, xs[1..]);
      SortPermutes(before, xs[1..]);
      SameMembers(Sort(before, xs[1..]), xs[1..]);
      InsertSorts(before, xs[0], Sort(before, xs[1..]));
    }
  }

  /**
   Place by place, two strictly ordered arrangements of the same elements agree: whatever stands at place k of one
   stands no earlier in the other, and the two elements at place k cannot both come before each other.
   */
  lemma {:induction false} AgreeUpTo<T(!new)>(before: (T, T) -> bool, a: seq<T>, b: seq<T>, k: nat)
    requires StrictOrder(before) && Sorted(before, a) && Sorted(before, b)
    requires (forall x :: x in a <==> x in b) && k <= |a|
    ensures k <= |b| && forall i :: 0 <= i < k ==> a[i] == b[i]
  {
    if k > 0 {
      AgreeUpTo(before, a, b, k - 1);
      var j := PlaceFrom(before, b, k - 1, a, a[k - 1]);
      var i := PlaceFrom(before, a, k - 1, b, b[k - 1]);
      assert i == k - 1 || before(a[k - 1], b[k - 1]);
      assert j == k - 1 || before(b[k - 1], a[k - 1]);
    }
  }

  /** An element at or after place k of a is at or after it in b as well, when they agree before it. */
  lemma PlaceFrom<T(!new)>(before: (T, T) -> bool, b: seq<T>, k: nat, a: seq<T>, x: T) returns (j: nat)
    requires StrictOrder(before) && Sorted(before, a) && k < |a| && x == a[k] && x in b
    requires k <= |b| && forall i :: 0 <= i < k ==> a[i] == b[i]
    ensures k <= j < |b| && b[j] == x
  {
    assert forall i :: 0 <= i < k ==> before(b[i], x);
    j :| 0 <= j < |b| && b[j] == x;
  }

  /** A strictly ordered arrangement is determined by which elements it holds. */
  lemma OneArrangement<T(!new)>(before: (T, T) -> bool, a: seq<T>, b: seq<T>)
    requires StrictOrder(before) && Sorted(before, a) && Sorted(before, b)
    requires forall x :: x in a <==> x in b
    ensures a == b
  {
    AgreeUpTo(before, a, b, |a|);
    AgreeUpTo(before, b, a, |b|);
  }

  /** Sorting forgets the arrangement it was given. */
  lemma SortIgnoresOrder<T(!new)>(before: (T, T) -> bool, xs: seq<T>, ys: seq<T>)
    requires StrictOrder(before) && Comparable(before, xs) && Comparable(before, ys)
    requires multiset(xs) == multiset(ys)
    ensures Sort(before, xs) == Sort(before, ys)
  {
    SortSorts(before, xs);
    SortSorts(before, ys);
    SortPermutes(before, xs);
    SortPermutes(before, ys);
    SameMembers(Sort(before, xs), Sort(before, ys));
    OneArrangement(before, Sort(before, xs), Sort(before, ys));
  }

  /** Byte-wise string order, as Go's < on strings. */
  predicate Below(a: string, b: string) {
    b != "" && (a == "" || a[0] < b[0] || (a[0] == b[0] && Below(a[1..], b[1..])))
  }

  lemma {:induction false} BelowTransitive(a: string, b: string, c: string)
    requires Below(a, b) && Below(b, c)
    ensures Below(a, c)
  {
    if a != "" && a[0] == b[0] == c[0] {
      BelowTransitive(a[1..], b[1..], c[1..]);
    }
  }

  lemma {:induction false} BelowIrreflexive(a: string)
    ensures !Below(a, a)
  {
    if a != "" {
      BelowIrreflexive(a[1..]);
    }
  }

  lemma {:induction false} BelowTotal(a: string, b: string)
    ensures a == b || Below(a, b) || Below(b, a)
  {
    if a != "" && b != "" && a[0] == b[0] {
      BelowTotal(a[1..], b[1..]);
      assert a == [a[0]] + a[1..] && b == [b[0]] + b[1..];
    }
  }

  lemma BelowIsStrictOrder()
    ensures StrictOrder(Below)
    ensures forall a, b :: a == b || Below(a, b) || Below(b, a)
  {
    forall a ensures !Below(a, a) {
      BelowIrreflexive(a);
    }
    forall a, b, c | Below(a, b) && Below(b, c) ensures Below(a, c) {
      BelowTransitive(a, b, c);
    }
    forall a, b ensures a == b || Below(a, b) || Below(b, a) {
      BelowTotal(a, b);
    }
  }

  /** No element occurs twice. */
  ghost predicate Distinct<T>(xs: seq<T>) {
    forall i, j :: 0 <= i < j < |xs| ==> xs[i] != xs[j]
  }

  lemma DistinctOnce<T>(xs: seq<T>)
    requires Distinct(xs)
    ensures forall x :: x in xs ==> multiset(xs)[x] == 1
    decreases |xs|
  {
    if xs != [] {
      assert xs == [xs[0]] + xs[1..];
      DistinctOnce(xs[1..]);
      assert xs[0] !in xs[1..];
    }
  }
}
