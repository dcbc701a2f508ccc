/** The two percentile formulas: nearest rank for summaries, rounded index for rollups. */
module Percentiles {
  import opened Sorting

  function IntLess(): (int, int) -> bool {
    (a, b) => a < b
  }

  function Ceil(x: real): int {
    -((-x).Floor)
  }

  /** Round half to even. */
  function BankerRound(x: real): int {
    var floor := x.Floor;
    var diff := x - floor as real;
    if diff > 0.5 then floor + 1
    else if diff < 0.5 then floor
    else if floor % 2 == 0 then floor
    else floor + 1
  }

  function Clamp(index: int, n: nat): nat
    requires n > 0
  {
    if index < 0 then 0 else if index >= n then n - 1 else index
  }

  function Part(n: nat, f: real): real {
    n as real * f
  }

  function SummaryIndex(n: nat, f: real): nat
    requires n > 0
  {
    Clamp(Ceil(Part(n, f)) - 1, n)
  }

  function RollupIndex(n: nat, f: real): nat
    requires n > 0
  {
    Clamp(BankerRound(Part(n - 1, f)), n)
  }

  function Ordered(values: seq<int>): seq<int> {
    Sort(values, IntLess())
  }

  lemma OrderedFacts(values: seq<int>)
    ensures |Ordered(values)| == |values| && multiset(Ordered(values)) == multiset(values)
    ensures forall i, j :: 0 <= i <= j < |values| ==> Ordered(values)[i] <= Ordered(values)[j]
  {
    SortFacts(values, IntLess());
  }

  function Summary(values: seq<int>, f: real): int {
    if values == [] then 0
    else
      OrderedFacts(values);
      Ordered(values)[SummaryIndex(|values|, f)]
  }

  /** The rollup form takes values that are sorted already. */
  function Rounded(sorted: seq<int>, f: real): int {
    if sorted == [] then 0 else sorted[RollupIndex(|sorted|, f)]
  }

  // ---- what the indices are ----

  lemma CeilBounds(x: real)
    ensures x <= Ceil(x) as real < x + 1.0
  {
  }

  /** Rounding lands on a nearest integer, and on the even one of two. */
  lemma RoundsToNearest(x: real)
    ensures -0.5 <= BankerRound(x) as real - x <= 0.5
    ensures BankerRound(x) as real - x == 0.5 || BankerRound(x) as real - x == -0.5 ==> BankerRound(x) % 2 == 0
  {
  }

  lemma RoundIsMonotone(x: real, y: real)
    requires x <= y
    ensures BankerRound(x) <= BankerRound(y)
  {
  }

  lemma CeilIsMonotone(x: real, y: real)
    requires x <= y
    ensures Ceil(x) <= Ceil(y)
  {
    CeilBounds(x);
    CeilBounds(y);
  }

  lemma PartIsMonotone(n: nat, f: real, g: real)
    requires f <= g
    ensures Part(n, f) <= Part(n, g)
  {
  }

  lemma PartInRange(n: nat, f: real)
    requires 0.0 < f <= 1.0
    ensures 0.0 <= Part(n, f) <= n as real && (n > 0 ==> Part(n, f) > 0.0)
  {
  }

  lemma CeilInRange(x: real, n: nat)
    requires 0.0 < x <= n as real
    ensures 1 <= Ceil(x) <= n
  {
  }

  lemma RoundInRange(x: real, n: nat)
    requires 0.0 <= x <= n as real
    ensures 0 <= BankerRound(x) <= n
  {
  }

  lemma IndicesAreMonotone(n: nat, f: real, g: real)
    requires f <= g && n > 0
    ensures SummaryIndex(n, f) <= SummaryIndex(n, g) < n && RollupIndex(n, f) <= RollupIndex(n, g) < n
  {
    PartIsMonotone(n, f, g);
    PartIsMonotone(n - 1, f, g);
    hide Part;
    CeilIsMonotone(Part(n, f), Part(n, g));
    RoundIsMonotone(Part(n - 1, f), Part(n - 1, g));
    hide Ceil, BankerRound;
  }

  /** A larger fraction never yields a smaller value, in either form. */
  lemma PercentilesAreMonotone(values: seq<int>, f: real, g: real)
    requires f <= g
    ensures Summary(values, f) <= Summary(values, g)
    ensures Rounded(Ordered(values), f) <= Rounded(Ordered(values), g)
  {
    hide Ordered, SummaryIndex, RollupIndex;
    OrderedFacts(values);
    if values != [] {
      IndicesAreMonotone(|values|, f, g);
    }
  }

  /** For a fraction in (0, 1] neither index needs clamping. */
  lemma IndicesAreInRange(n: nat, f: real)
    requires n > 0 && 0.0 < f <= 1.0
    ensures SummaryIndex(n, f) == Ceil(Part(n, f)) - 1
    ensures RollupIndex(n, f) == BankerRound(Part(n - 1, f))
  {
    PartInRange(n, f);
    PartInRange(n - 1, f);
    hide Part, Ceil, BankerRound;
    CeilInRange(Part(n, f), n);
    RoundInRange(Part(n - 1, f), n - 1);
  }

  /** The two forms read the same sorted data at most one rank apart. */
  lemma RanksDifferByAtMostOne(n: nat, f: real)
    requires n > 0 && 0.0 < f <= 1.0
    ensures -1 <= SummaryIndex(n, f) - RollupIndex(n, f) <= 1
  {
    IndicesAreInRange(n, f);
    hide SummaryIndex, RollupIndex;
    PartBelow(n, f);
    hide Part;
    CeilBounds(Part(n, f));
    RoundsToNearest(Part(n - 1, f));
    hide Ceil, BankerRound;
  }

  lemma PartBelow(n: nat, f: real)
    requires n > 0
    ensures Part(n - 1, f) == Part(n, f) - f
  {
  }

  /** How far into its rank the fraction reaches: more than nothing, at most all of it. */
  function Reach(n: nat, f: real): real
    requires n > 0
  {
    Part(n, f) - SummaryIndex(n, f) as real
  }

  /**
   And they really are two forms: they read the same rank exactly when the reach lies within half a rank of
   the fraction, and at exactly half a rank only if that rank is even.
   */
  lemma RanksCoincideIff(n: nat, f: real)
    requires n > 0 && 0.0 < f <= 1.0
    ensures 0.0 < Reach(n, f) <= 1.0
    ensures SummaryIndex(n, f) == RollupIndex(n, f) <==>
              || -0.5 < Reach(n, f) - f < 0.5
              || ((Reach(n, f) - f == 0.5 || Reach(n, f) - f == -0.5) && SummaryIndex(n, f) % 2 == 0)
  {
    IndicesAreInRange(n, f);
    hide SummaryIndex, RollupIndex;
    PartBelow(n, f);
    hide Part;
    CeilBounds(Part(n, f));
    hide Ceil;
    RoundsTo(Part(n - 1, f), SummaryIndex(n, f));
  }

  /** Where rounding lands on a given integer. */
  lemma RoundsTo(x: real, k: int)
    ensures BankerRound(x) == k <==>
              || -0.5 < x - k as real < 0.5
              || ((x - k as real == 0.5 || x - k as real == -0.5) && k % 2 == 0)
  {
  }

  /** At the 95th percentile, in whole numbers: they differ for 8 or 9 of every 20 sizes, twelve among them. */
  lemma RanksAtP95(n: nat)
    requires n > 0
    ensures SummaryIndex(n, 0.95) == (19 * n - 1) / 20
    ensures var d := (19 * n - 1) % 20;
            SummaryIndex(n, 0.95) == RollupIndex(n, 0.95) <==> d >= 9 || (d == 8 && SummaryIndex(n, 0.95) % 2 == 0)
  {
    var f: real := 0.95;
    var index, d := (19 * n - 1) / 20, (19 * n - 1) % 20;
    assert 19 * n == 20 * index + d + 1;
    IndicesAreInRange(n, f);
    TwentiethsOf(n, f);
    var x := Part(n, f);
    assert 20.0 * x == 20.0 * index as real + d as real + 1.0;
    CeilBounds(x);
    assert Ceil(x) == index + 1;
    assert Reach(n, f) == x - index as real;
    hide SummaryIndex, RollupIndex, Part, Ceil;
    RanksCoincideIff(n, f);
  }

  lemma TwentiethsOf(n: nat, f: real)
    requires f == 0.95
    ensures 20.0 * Part(n, f) == (19 * n) as real
  {
  }

  // ---- nearest rank ----

  function AtMostCount(values: seq<int>, v: int): nat {
    if values == [] then 0 else AtMostCount(values[..|values| - 1], v) + if values[|values| - 1] <= v then 1 else 0
  }

  /** Sorting does not change how many values lie at or below `v`. */
  lemma {:induction false} CountInsert(s: seq<int>, x: int, v: int)
    ensures AtMostCount(Insert(s, x, IntLess()), v) == AtMostCount(s, v) + if x <= v then 1 else 0
  {
    if s != [] && x < s[|s| - 1] {
      CountInsert(s[..|s| - 1], x, v);
      var rest := Insert(s[..|s| - 1], x, IntLess());
      assert (rest + [s[|s| - 1]])[..|rest|] == rest;
    } else {
      assert (s + [x])[..|s|] == s;
    }
  }

  lemma {:induction false} CountOrdered(values: seq<int>, v: int)
    ensures AtMostCount(Ordered(values), v) == AtMostCount(values, v)
  {
    if values != [] {
      var front := values[..|values| - 1];
      CountOrdered(front, v);
      CountInsert(Sort(front, IntLess()), values[|values| - 1], v);
    }
  }

  lemma {:induction false} CountAscending(s: seq<int>, v: int, i: nat)
    requires i <= |s| && forall j, k :: 0 <= j <= k < |s| ==> s[j] <= s[k]
    requires (forall j :: 0 <= j < i ==> s[j] <= v) && forall j :: i <= j < |s| ==> s[j] > v
    ensures AtMostCount(s, v) == i
  {
    if s != [] {
      var front := s[..|s| - 1];
      if i == |s| {
        CountAscending(front, v, i - 1);
      } else {
        CountAscending(front, v, i);
      }
    }
  }

  /**
   The summary percentile is the nearest rank: a value of the list with at least the fraction of all
   values at or below it, and no smaller number has as many.
   */
  lemma SummaryIsNearestRank(values: seq<int>, f: real)
    requires values != [] && 0.0 < f <= 1.0
    ensures var v, n := Summary(values, f), |values|;
            && v in values && AtMostCount(values, v) as real >= Part(n, f)
            && forall u :: u < v ==> (AtMostCount(values, u) as real) < Part(n, f)
  {
    var s, n, index := Ordered(values), |values|, SummaryIndex(|values|, f);
    OrderedFacts(values);
    var v := s[index];
    assert v in multiset(s) && v in multiset(values);
    IndicesAreInRange(n, f);
    CeilBounds(Part(n, f));
    hide Part, Ceil, Ordered, SummaryIndex, AtMostCount;
    CountOrdered(values, v);
    CountFrom(s, v, index);
    forall u | u < v ensures (AtMostCount(values, u) as real) < Part(n, f) {
      CountOrdered(values, u);
      CountBelow(s, u, index);
    }
  }

  lemma {:induction false} CountFrom(s: seq<int>, v: int, index: nat)
    requires index < |s| && (forall j, k :: 0 <= j <= k < |s| ==> s[j] <= s[k]) && s[index] <= v
    ensures AtMostCount(s, v) >= index + 1
  {
    if index == |s| - 1 {
      CountAscending(s, v, |s|);
    } else {
      CountFrom(s[..|s| - 1], v, index);
    }
  }

  lemma {:induction false} CountBelow(s: seq<int>, u: int, index: nat)
    requires index < |s| && (forall j, k :: 0 <= j <= k < |s| ==> s[j] <= s[k]) && u < s[index]
    ensures AtMostCount(s, u) <= index
  {
    if index == |s| - 1 {
      CountSize(s[..|s| - 1], u);
    } else {
      CountBelow(s[..|s| - 1], u, index);
    }
  }

  lemma {:induction false} CountSize(s: seq<int>, u: int)
    ensures AtMostCount(s, u) <= |s|
  {
    if s != [] {
      CountSize(s[..|s| - 1], u);
    }
  }
}
