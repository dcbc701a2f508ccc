/** Ascending lists of integer keys. */
module Keys {
  import opened Sorting
  import opened Seqs

  ghost predicate Ascending(s: seq<int>) {
    forall i, j :: 0 <= i < j < |s| ==> s[i] < s[j]
  }

  lemma MemberWitness(b: seq<int>)
    requires b != []
    ensures exists x :: x in b
  {
    var x := b[0];
    assert x in b;
  }

  lemma {:induction false} AscendingUnique(a: seq<int>, b: seq<int>)
    requires Ascending(a) && Ascending(b) && forall x :: x in a <==> x in b
    ensures a == b
  {
    if a == [] || b == [] {
      if a != [] {
        MemberWitness(a);
      }
      if b != [] {
        MemberWitness(b);
      }
    } else {
      LastIsLargest(a);
      LastIsLargest(b);
      var x, y := a[|a| - 1], b[|b| - 1];
      assert x in b && y in a;
      assert x == y;
      var a', b' := a[..|a| - 1], b[..|b| - 1];
      forall z ensures z in a' <==> z in b' {
        assert z in a <==> z in b;
      }
      AscendingUnique(a', b');
      assert a == a' + [x] && b == b' + [x];
    }
  }

  lemma LastIsLargest(a: seq<int>)
    requires Ascending(a) && a != []
    ensures var last := a[|a| - 1];
            last in a && (forall x :: x in a ==> x <= last)
            && (forall x :: x in a[..|a| - 1] <==> x in a && x != last)
  {
    assert a == a[..|a| - 1] + [a[|a| - 1]];
  }

  /** A set's members in whatever order the set yields them. */
  method Elements(members: set<int>) returns (keys: seq<int>)
    ensures Distinct(keys) && forall x :: x in keys <==> x in members
  {
    keys := [];
    var rest := members;
    while rest != {}
      invariant rest <= members && Distinct(keys)
      invariant forall x :: x in keys <==> x in members && x !in rest
    {
      var x := Pick(rest);
      keys := keys + [x];
      rest := rest - {x};
    }
  }

  /** The members in ascending order, whatever order the set yields them in. */
  method SortedKeys(members: set<int>) returns (keys: seq<int>)
    ensures Ascending(keys) && forall x :: x in keys <==> x in members
  {
    var given := Elements(members);
    var a := new int[|given|](i requires 0 <= i < |given| => given[i]);
    assert a[..] == given;
    var less := (x: int, y: int) => x < y;
    InsertionSort(a, less);
    SortFacts(given, less);
    keys := a[..];
    SortedDistinctAscends(given, keys, less);
  }

  lemma SortedDistinctAscends(given: seq<int>, keys: seq<int>, less: (int, int) -> bool)
    requires Distinct(given) && multiset(keys) == multiset(given) && Sorted(keys, less)
    requires forall x, y :: less(x, y) <==> x < y
    ensures Ascending(keys)
  {
    DistinctCount(given);
    forall i, j | 0 <= i < j < |keys| ensures keys[i] < keys[j] {
      if keys[i] == keys[j] {
        TwiceCounted(keys, i, j);
      }
    }
  }

  lemma TwiceCounted<T>(s: seq<T>, i: nat, j: nat)
    requires i < j < |s| && s[i] == s[j]
    ensures multiset(s)[s[i]] >= 2
  {
    assert s == s[..i] + [s[i]] + s[i + 1..j] + [s[j]] + s[j + 1..];
  }
}
