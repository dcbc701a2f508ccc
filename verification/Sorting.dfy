/** The stable in-place insertion sort that `sortStrings` and `sortByReset` share. */
module Sorting {

  /** Put `x` behind the last element of `s` that it does not beat. */
  function Insert<T>(s: seq<T>, x: T, less: (T, T) -> bool): seq<T> {
    if s == [] || !less(x, s[|s| - 1]) then s + [x]
    else Insert(s[..|s| - 1], x, less) + [s[|s| - 1]]
  }

  function Sort<T>(s: seq<T>, less: (T, T) -> bool): seq<T> {
    if s == [] then [] else Insert(Sort(s[..|s| - 1], less), s[|s| - 1], less)
  }

  ghost predicate StrictWeakOrder<T(!new)>(less: (T, T) -> bool) {
    && (forall x :: !less(x, x))
    && (forall x, y, z :: less(x, y) && less(y, z) ==> less(x, z))
    && (forall x, y, z :: !less(x, y) && !less(y, z) ==> !less(x, z))
  }

  ghost predicate Sorted<T>(s: seq<T>, less: (T, T) -> bool) {
    forall i, j :: 0 <= i < j < |s| ==> !less(s[j], s[i])
  }

  predicate Distinct<T(==)>(s: seq<T>) {
    forall i, j :: 0 <= i < j < |s| ==> s[i] != s[j]
  }

  lemma {:induction false} InsertMembers<T>(s: seq<T>, x: T, less: (T, T) -> bool)
    ensures multiset(Insert(s, x, less)) == multiset(s) + multiset{x}
    ensures forall y :: y in Insert(s, x, less) <==> y in s || y == x
    ensures |Insert(s, x, less)| == |s| + 1
  {
    if s != [] {
      var front, last := s[..|s| - 1], s[|s| - 1];
      assert s == front + [last];
      if less(x, last) {
        InsertMembers(front, x, less);
      }
    }
  }

  lemma {:induction false} InsertFacts<T(!new)>(s: seq<T>, x: T, less: (T, T) -> bool)
    requires StrictWeakOrder(less) && Sorted(s, less)
    ensures Sorted(Insert(s, x, less), less)
    ensures |Insert(s, x, less)| > 0
    ensures Insert(s, x, less)[0] == if s == [] || less(x, s[0]) then x else s[0]
  {
    if s != [] {
      var front, last := s[..|s| - 1], s[|s| - 1];
      if less(x, last) {
        InsertFacts(front, x, less);
        InsertMembers(front, x, less);
        Behind(Insert(front, x, less), last, less);
      } else {
        Behind(s, x, less);
      }
    }
  }

  lemma Behind<T(!new)>(s: seq<T>, x: T, less: (T, T) -> bool)
    requires Sorted(s, less) && forall y :: y in s ==> !less(x, y)
    ensures Sorted(s + [x], less)
  {
  }

  /** The first of the smallest elements. */
  predicate IsFirstMin<T(==)>(s: seq<T>, i: nat, less: (T, T) -> bool) {
    && i < |s|
    && (forall j :: 0 <= j < i ==> less(s[i], s[j]))
    && (forall j :: i <= j < |s| ==> !less(s[j], s[i]))
  }

  /** Sorting permutes, orders, and moves the first smallest element to the front. */
  lemma {:induction false} SortFacts<T(!new)>(s: seq<T>, less: (T, T) -> bool)
    requires StrictWeakOrder(less)
    ensures Sorted(Sort(s, less), less)
    ensures multiset(Sort(s, less)) == multiset(s) && |Sort(s, less)| == |s|
    ensures forall x :: x in Sort(s, less) <==> x in s
  {
    if s != [] {
      var front, last := s[..|s| - 1], s[|s| - 1];
      assert s == front + [last];
      SortFacts(front, less);
      InsertFacts(Sort(front, less), last, less);
      InsertMembers(Sort(front, less), last, less);
    }
  }

  lemma {:induction false} SortHead<T(!new)>(s: seq<T>, less: (T, T) -> bool) returns (i: nat)
    requires StrictWeakOrder(less) && s != []
    ensures IsFirstMin(s, i, less) && |Sort(s, less)| > 0 && Sort(s, less)[0] == s[i]
  {
    var front, last := s[..|s| - 1], s[|s| - 1];
    assert Sort(s, less) == Insert(Sort(front, less), last, less);
    SortFacts(front, less);
    InsertFacts(Sort(front, less), last, less);
    if front == [] {
      i := 0;
      assert Sort(front, less) == [];
    } else {
      hide Sort, Sorted, StrictWeakOrder;
      i := SortHead(front, less);
      FirstMinGrows(s, i, less);
      if less(last, s[i]) {
        i := |s| - 1;
      }
    }
  }

  lemma FirstMinGrows<T(!new)>(s: seq<T>, i: nat, less: (T, T) -> bool)
    requires StrictWeakOrder(less) && |s| > 1 && IsFirstMin(s[..|s| - 1], i, less)
    ensures IsFirstMin(s, if less(s[|s| - 1], s[i]) then |s| - 1 else i, less)
  {
    var front := s[..|s| - 1];
    assert forall j :: 0 <= j < |front| ==> s[j] == front[j];
  }

  /** Sinking `x` from behind `sorted` to position `j` leaves the tail moved up by one. */
  lemma {:induction false} InsertSinks<T>(sorted: seq<T>, x: T, less: (T, T) -> bool, j: nat)
    requires j <= |sorted| && forall k :: j <= k < |sorted| ==> less(x, sorted[k])
    ensures Insert(sorted, x, less) == Insert(sorted[..j], x, less) + sorted[j..]
  {
    if j == |sorted| {
      assert sorted[..j] == sorted;
    } else {
      var front := sorted[..|sorted| - 1];
      InsertSinks(front, x, less, j);
      assert front[..j] == sorted[..j];
      assert front[j..] + [sorted[|sorted| - 1]] == sorted[j..];
    }
  }

  method Sink<T>(a: array<T>, i: nat, less: (T, T) -> bool)
    requires i < a.Length
    modifies a
    ensures a[..i + 1] == Insert(old(a[..i]), old(a[i]), less)
    ensures a[i + 1..] == old(a[i + 1..])
  {
    ghost var was := a[..];
    ghost var x := a[i];
    var j := i;
    while j > 0 && less(a[j], a[j - 1])
      invariant 0 <= j <= i && a[j] == x
      invariant forall k :: 0 <= k < j || i < k < a.Length ==> a[k] == was[k]
      invariant forall k :: j < k <= i ==> a[k] == was[k - 1] && less(x, was[k - 1])
    {
      a[j], a[j - 1] := a[j - 1], a[j];
      j := j - 1;
    }
    ghost var sorted := was[..i];
    forall k | j <= k < i ensures less(x, sorted[k]) {
      assert a[k + 1] == was[k];
    }
    InsertSinks(sorted, x, less, j);
    assert Insert(sorted[..j], x, less) == sorted[..j] + [x];
    assert a[..i + 1] == sorted[..j] + [x] + sorted[j..];
  }

  method InsertionSort<T>(a: array<T>, less: (T, T) -> bool)
    modifies a
    ensures a[..] == Sort(old(a[..]), less)
  {
    ghost var was := a[..];
    for i := 0 to a.Length
      invariant a[..i] == Sort(was[..i], less) && a[i..] == was[i..]
    {
      assert a[i] == was[i] by { assert a[i..][0] == was[i..][0]; }
      assert was[..i + 1][..i] == was[..i];
      assert a[i..][1..] == a[i + 1..] && was[i..][1..] == was[i + 1..];
      Sink(a, i, less);
    }
    assert was[..a.Length] == was && a[..a.Length] == a[..];
  }
}
