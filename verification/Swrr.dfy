/**
 Smooth weighted round-robin: every candidate gains its weight, the first largest accumulator wins
 and pays back the total. The provider tiers and the weighted account strategy both draw this way.
 */
module Swrr {
  import opened Sorting

  type Weights = map<string, int>

  /** A missing accumulator reads as zero. */
  function Get(acc: map<string, int>, key: string): int {
    if key in acc then acc[key] else 0
  }

  function Total(keys: seq<string>, w: Weights): int
    requires forall k :: k in keys ==> k in w
  {
    if keys == [] then 0 else Total(keys[..|keys| - 1], w) + w[keys[|keys| - 1]]
  }

  function Bump(keys: seq<string>, w: Weights, acc: map<string, int>): map<string, int>
    requires forall k :: k in keys ==> k in w
  {
    if keys == [] then acc
    else
      var key := keys[|keys| - 1];
      var before := Bump(keys[..|keys| - 1], w, acc);
      before[key := Get(before, key) + w[key]]
  }

  lemma NoneCounted(keys: seq<string>, w: Weights, acc: map<string, int>)
    requires forall k :: k in keys ==> k in w
    ensures Total(keys[..0], w) == 0 && Bump(keys[..0], w, acc) == acc
  {
  }

  lemma CountNext(keys: seq<string>, w: Weights, acc: map<string, int>, i: nat)
    requires i < |keys| && forall k :: k in keys ==> k in w
    ensures Total(keys[..i + 1], w) == Total(keys[..i], w) + w[keys[i]]
    ensures var before := Bump(keys[..i], w, acc);
            Bump(keys[..i + 1], w, acc) == before[keys[i] := Get(before, keys[i]) + w[keys[i]]]
  {
    assert keys[..i + 1][..i] == keys[..i];
  }

  /** The first key whose accumulator no other key exceeds. */
  function Best(keys: seq<string>, acc: map<string, int>): string
    requires keys != []
  {
    if |keys| == 1 then keys[0]
    else
      var best := Best(keys[..|keys| - 1], acc);
      if Get(acc, keys[|keys| - 1]) > Get(acc, best) then keys[|keys| - 1] else best
  }

  function Winner(keys: seq<string>, w: Weights, acc: map<string, int>): string
    requires keys != [] && forall k :: k in keys ==> k in w
  {
    Best(keys, Bump(keys, w, acc))
  }

  function Draw(keys: seq<string>, w: Weights, acc: map<string, int>): map<string, int>
    requires keys != [] && forall k :: k in keys ==> k in w
  {
    var bumped := Bump(keys, w, acc);
    var winner := Best(keys, bumped);
    bumped[winner := Get(bumped, winner) - Total(keys, w)]
  }

  // ---- what one draw does ----

  lemma {:induction false} BestIsLargest(keys: seq<string>, acc: map<string, int>)
    requires keys != []
    ensures Best(keys, acc) in keys
    ensures forall k :: k in keys ==> Get(acc, k) <= Get(acc, Best(keys, acc))
  {
    if |keys| > 1 {
      BestIsLargest(keys[..|keys| - 1], acc);
      assert keys == keys[..|keys| - 1] + [keys[|keys| - 1]];
    }
  }

  /** Of several largest accumulators the first candidate's wins. */
  lemma {:induction false} BestIsFirst(keys: seq<string>, acc: map<string, int>) returns (i: nat)
    requires keys != []
    ensures i < |keys| && keys[i] == Best(keys, acc) && forall j :: 0 <= j < i ==> Get(acc, keys[j]) < Get(acc, keys[i])
  {
    if |keys| == 1 {
      i := 0;
    } else {
      var front, last := keys[..|keys| - 1], keys[|keys| - 1];
      i := BestIsFirst(front, acc);
      if Get(acc, last) > Get(acc, Best(front, acc)) {
        BestIsLargest(front, acc);
        i := |keys| - 1;
        assert forall j :: 0 <= j < i ==> keys[j] == front[j] && keys[j] in front;
      }
    }
  }

  lemma {:induction false} BumpAt(keys: seq<string>, w: Weights, acc: map<string, int>, k: string)
    requires Distinct(keys) && forall k :: k in keys ==> k in w
    ensures Get(Bump(keys, w, acc), k) == Get(acc, k) + if k in keys then w[k] else 0
    ensures k in Bump(keys, w, acc) <==> k in acc || k in keys
  {
    if keys != [] {
      var front := keys[..|keys| - 1];
      assert keys == front + [keys[|keys| - 1]];
      BumpAt(front, w, acc, k);
      BumpAt(front, w, acc, keys[|keys| - 1]);
    }
  }

  /** The sum of the accumulators of `all`. */
  function Sum(all: seq<string>, acc: map<string, int>): int {
    if all == [] then 0 else Sum(all[..|all| - 1], acc) + Get(acc, all[|all| - 1])
  }

  lemma {:induction false} SumUpdate(all: seq<string>, acc: map<string, int>, k: string, v: int)
    requires Distinct(all)
    ensures Sum(all, acc[k := v]) == Sum(all, acc) + if k in all then v - Get(acc, k) else 0
  {
    if all != [] {
      var front := all[..|all| - 1];
      assert all == front + [all[|all| - 1]];
      SumUpdate(front, acc, k, v);
    }
  }

  lemma {:induction false} SumBump(all: seq<string>, keys: seq<string>, w: Weights, acc: map<string, int>)
    requires Distinct(all) && forall k :: k in keys ==> k in w && k in all
    ensures Sum(all, Bump(keys, w, acc)) == Sum(all, acc) + Total(keys, w)
  {
    if keys != [] {
      var front, key := keys[..|keys| - 1], keys[|keys| - 1];
      SumBump(all, front, w, acc);
      SumUpdate(all, Bump(front, w, acc), key, Get(Bump(front, w, acc), key) + w[key]);
    }
  }

  /** A draw among any candidates leaves the sum over any superset of them as it was. */
  lemma DrawConserves(all: seq<string>, keys: seq<string>, w: Weights, acc: map<string, int>)
    requires keys != [] && Distinct(all) && forall k :: k in keys ==> k in w && k in all
    ensures Sum(all, Draw(keys, w, acc)) == Sum(all, acc)
  {
    var bumped := Bump(keys, w, acc);
    SumBump(all, keys, w, acc);
    BestIsLargest(keys, bumped);
    SumUpdate(all, bumped, Best(keys, bumped), Get(bumped, Best(keys, bumped)) - Total(keys, w));
  }

  lemma {:induction false} TotalPositive(keys: seq<string>, w: Weights)
    requires keys != [] && forall k :: k in keys ==> k in w && w[k] > 0
    ensures Total(keys, w) > 0
    ensures forall k :: k in keys ==> w[k] <= Total(keys, w)
  {
    var front, last := keys[..|keys| - 1], keys[|keys| - 1];
    assert keys == front + [last];
    assert Total(keys, w) == Total(front, w) + w[last];
    if front != [] {
      TotalPositive(front, w);
    }
  }

  lemma {:induction false} SumAtMost(keys: seq<string>, acc: map<string, int>, bound: int)
    requires forall k :: k in keys ==> Get(acc, k) <= bound
    ensures Sum(keys, acc) <= |keys| * bound
  {
    if keys != [] {
      SumAtMost(keys[..|keys| - 1], acc, bound);
    }
  }

  /** The states a fresh scheduler can be in: accumulators cancel out and none reaches minus the total. */
  ghost predicate Balanced(keys: seq<string>, w: Weights, acc: map<string, int>)
    requires forall k :: k in keys ==> k in w
  {
    Sum(keys, acc) == 0 && forall k :: k in keys ==> Get(acc, k) > -Total(keys, w)
  }

  ghost predicate Tier(keys: seq<string>, w: Weights) {
    keys != [] && Distinct(keys) && forall k :: k in keys ==> k in w && w[k] > 0
  }

  lemma DrawAt(keys: seq<string>, w: Weights, acc: map<string, int>, k: string)
    requires keys != [] && Distinct(keys) && forall k :: k in keys ==> k in w
    ensures Winner(keys, w, acc) in keys
    ensures Get(Draw(keys, w, acc), k) == Get(acc, k) + (if k in keys then w[k] else 0)
                                          - (if k == Winner(keys, w, acc) then Total(keys, w) else 0)
    ensures k in Draw(keys, w, acc) <==> k in acc || k in keys
  {
    BestIsLargest(keys, Bump(keys, w, acc));
    BumpAt(keys, w, acc, k);
  }

  lemma DrawStaysBalanced(keys: seq<string>, w: Weights, acc: map<string, int>)
    requires Tier(keys, w) && Balanced(keys, w, acc)
    ensures Balanced(keys, w, Draw(keys, w, acc))
  {
    var bumped := Bump(keys, w, acc);
    var winner := Winner(keys, w, acc);
    var total := Total(keys, w);
    DrawConserves(keys, keys, w, acc);
    TotalPositive(keys, w);
    SumBump(keys, keys, w, acc);
    BestIsLargest(keys, bumped);
    if Get(bumped, winner) <= 0 {
      SumAtMost(keys, bumped, 0);
    }
    forall k | k in keys ensures Get(Draw(keys, w, acc), k) > -total {
      DrawAt(keys, w, acc, k);
      BumpAt(keys, w, acc, k);
    }
  }

  // ---- runs of draws ----

  function After(keys: seq<string>, w: Weights, acc: map<string, int>, n: nat): map<string, int>
    requires keys != [] && forall k :: k in keys ==> k in w
  {
    if n == 0 then acc else Draw(keys, w, After(keys, w, acc, n - 1))
  }

  /** How often `k` wins among the first `n` draws from `acc`. */
  function Wins(keys: seq<string>, w: Weights, acc: map<string, int>, n: nat, k: string): nat
    requires keys != [] && forall k :: k in keys ==> k in w
  {
    if n == 0 then 0
    else Wins(keys, w, acc, n - 1, k) + if Winner(keys, w, After(keys, w, acc, n - 1)) == k then 1 else 0
  }

  lemma Step(n: int, w: int)
    ensures (n + 1) * w == n * w + w && w * (n + 1) == w * n + w
  {
  }

  /** Dividing an exact share by the positive total. */
  lemma ShareBound(total: int, wins: int, weight: int)
    requires total > 0 && total * wins < total * weight + total
    ensures wins <= weight
  {
    if wins >= weight + 1 {
      Monotone(total, weight + 1, wins);
      Step(weight, total);
    }
  }

  lemma {:induction false} Monotone(total: int, a: int, b: int)
    requires total >= 0 && a <= b
    ensures total * a <= total * b
    decreases b - a
  {
    if a < b {
      Monotone(total, a, b - 1);
      Step(b - 1, total);
    }
  }

  lemma SameShare(total: int, a: int, b: int)
    requires total > 0 && total * a == total * b
    ensures a == b
  {
    if a < b {
      ShareBound(total, b, a);
    } else if b < a {
      ShareBound(total, a, b);
    }
  }

  /** An accumulator is its starting value plus what it gained minus what it paid. */
  lemma {:induction false} Ledger(keys: seq<string>, w: Weights, acc: map<string, int>, n: nat, k: string)
    requires Tier(keys, w) && k in keys
    ensures Get(After(keys, w, acc, n), k) == Get(acc, k) + n * w[k] - Total(keys, w) * Wins(keys, w, acc, n, k)
  {
    if n > 0 {
      Ledger(keys, w, acc, n - 1, k);
      DrawAt(keys, w, After(keys, w, acc, n - 1), k);
      Step(n - 1, w[k]);
      Step(Wins(keys, w, acc, n - 1, k), Total(keys, w));
    }
  }

  lemma {:induction false} StaysBalanced(keys: seq<string>, w: Weights, acc: map<string, int>, n: nat)
    requires Tier(keys, w) && Balanced(keys, w, acc)
    ensures Balanced(keys, w, After(keys, w, acc, n))
  {
    if n > 0 {
      StaysBalanced(keys, w, acc, n - 1);
      DrawStaysBalanced(keys, w, After(keys, w, acc, n - 1));
    }
  }

  function SumWins(all: seq<string>, keys: seq<string>, w: Weights, acc: map<string, int>, n: nat): nat
    requires keys != [] && forall k :: k in keys ==> k in w
  {
    if all == [] then 0
    else SumWins(all[..|all| - 1], keys, w, acc, n) + Wins(keys, w, acc, n, all[|all| - 1])
  }

  lemma {:induction false} SumWinsStep(all: seq<string>, keys: seq<string>, w: Weights, acc: map<string, int>, n: nat)
    requires Tier(keys, w) && Distinct(all) && n > 0
    ensures SumWins(all, keys, w, acc, n)
         == SumWins(all, keys, w, acc, n - 1) + if Winner(keys, w, After(keys, w, acc, n - 1)) in all then 1 else 0
  {
    if all != [] {
      assert all == all[..|all| - 1] + [all[|all| - 1]];
      SumWinsStep(all[..|all| - 1], keys, w, acc, n);
    }
  }

  lemma {:induction false} EveryDrawHasOneWinner(keys: seq<string>, w: Weights, acc: map<string, int>, n: nat)
    requires Tier(keys, w)
    ensures SumWins(keys, keys, w, acc, n) == n
  {
    if n > 0 {
      EveryDrawHasOneWinner(keys, w, acc, n - 1);
      SumWinsStep(keys, keys, w, acc, n);
      BestIsLargest(keys, Bump(keys, w, After(keys, w, acc, n - 1)));
    } else {
      NoWinsYet(keys, keys, w, acc);
    }
  }

  lemma {:induction false} NoWinsYet(all: seq<string>, keys: seq<string>, w: Weights, acc: map<string, int>)
    requires keys != [] && forall k :: k in keys ==> k in w
    ensures SumWins(all, keys, w, acc, 0) == 0
  {
    if all != [] {
      NoWinsYet(all[..|all| - 1], keys, w, acc);
    }
  }

  ghost predicate Fresh(keys: seq<string>, acc: map<string, int>) {
    forall k :: k in keys ==> Get(acc, k) == 0
  }

  lemma {:induction false} FreshSum(keys: seq<string>, acc: map<string, int>)
    requires Fresh(keys, acc)
    ensures Sum(keys, acc) == 0
  {
    if keys != [] {
      FreshSum(keys[..|keys| - 1], acc);
    }
  }

  lemma FreshIsBalanced(keys: seq<string>, w: Weights, acc: map<string, int>)
    requires Tier(keys, w) && Fresh(keys, acc)
    ensures Balanced(keys, w, acc)
  {
    FreshSum(keys, acc);
    TotalPositive(keys, w);
  }

  /** At every moment nobody is a full round ahead of its exact share. */
  lemma NeverARoundAhead(keys: seq<string>, w: Weights, acc: map<string, int>, t: nat, k: string)
    requires Tier(keys, w) && Fresh(keys, acc) && k in keys
    ensures Total(keys, w) * Wins(keys, w, acc, t, k) < t * w[k] + Total(keys, w)
  {
    FreshIsBalanced(keys, w, acc);
    StaysBalanced(keys, w, acc, t);
    Ledger(keys, w, acc, t, k);
  }

  lemma {:induction false} TightWins(all: seq<string>, keys: seq<string>, w: Weights, acc: map<string, int>, n: nat)
    requires Tier(keys, w) && (forall k :: k in all ==> k in keys)
    requires forall k :: k in all ==> Wins(keys, w, acc, n, k) <= w[k]
    ensures SumWins(all, keys, w, acc, n) <= Total(all, w)
    ensures SumWins(all, keys, w, acc, n) == Total(all, w) ==> forall k :: k in all ==> Wins(keys, w, acc, n, k) == w[k]
  {
    if all != [] {
      assert all == all[..|all| - 1] + [all[|all| - 1]];
      TightWins(all[..|all| - 1], keys, w, acc, n);
    }
  }

  /** One round of `Total` draws gives every key exactly its weight and resets the accumulators. */
  lemma FirstRoundIsExact(keys: seq<string>, w: Weights, acc: map<string, int>)
    requires Tier(keys, w) && Fresh(keys, acc)
    ensures Total(keys, w) > 0
    ensures forall k :: k in keys ==> Wins(keys, w, acc, Total(keys, w), k) == w[k]
    ensures Fresh(keys, After(keys, w, acc, Total(keys, w)))
  {
    TotalPositive(keys, w);
    var total: nat := Total(keys, w);
    forall k | k in keys ensures Wins(keys, w, acc, total, k) <= w[k] {
      NeverARoundAhead(keys, w, acc, total, k);
      ShareBound(total, Wins(keys, w, acc, total, k), w[k]);
    }
    EveryDrawHasOneWinner(keys, w, acc, total);
    TightWins(keys, keys, w, acc, total);
    forall k | k in keys ensures Get(After(keys, w, acc, total), k) == 0 {
      Ledger(keys, w, acc, total, k);
    }
  }

  /** Accumulators outside `keys` play no part in a draw. */
  lemma {:induction false} BestAgrees(keys: seq<string>, a: map<string, int>, b: map<string, int>)
    requires keys != [] && forall k :: k in keys ==> Get(a, k) == Get(b, k)
    ensures Best(keys, a) == Best(keys, b)
  {
    if |keys| > 1 {
      assert keys == keys[..|keys| - 1] + [keys[|keys| - 1]];
      BestAgrees(keys[..|keys| - 1], a, b);
      BestIsLargest(keys[..|keys| - 1], a);
    }
  }

  lemma DrawAgrees(keys: seq<string>, w: Weights, a: map<string, int>, b: map<string, int>)
    requires Tier(keys, w) && forall k :: k in keys ==> Get(a, k) == Get(b, k)
    ensures Winner(keys, w, a) == Winner(keys, w, b)
    ensures forall k :: k in keys ==> Get(Draw(keys, w, a), k) == Get(Draw(keys, w, b), k)
  {
    forall k | k in keys ensures Get(Bump(keys, w, a), k) == Get(Bump(keys, w, b), k) {
      BumpAt(keys, w, a, k);
      BumpAt(keys, w, b, k);
    }
    BestAgrees(keys, Bump(keys, w, a), Bump(keys, w, b));
    forall k | k in keys ensures Get(Draw(keys, w, a), k) == Get(Draw(keys, w, b), k) {
      DrawAt(keys, w, a, k);
      DrawAt(keys, w, b, k);
    }
  }

  lemma {:induction false} Periodic(keys: seq<string>, w: Weights, acc: map<string, int>, s: nat)
    requires Tier(keys, w) && Fresh(keys, acc)
    ensures Total(keys, w) > 0
    ensures forall k :: k in keys ==> Get(After(keys, w, acc, s + Total(keys, w)), k) == Get(After(keys, w, acc, s), k)
  {
    TotalPositive(keys, w);
    if s == 0 {
      FirstRoundIsExact(keys, w, acc);
    } else {
      Periodic(keys, w, acc, s - 1);
      DrawAgrees(keys, w, After(keys, w, acc, s - 1 + Total(keys, w)), After(keys, w, acc, s - 1));
    }
  }

  /** Any `Total` consecutive draws, wherever they begin, give every key exactly its weight. */
  lemma EveryWindowIsExact(keys: seq<string>, w: Weights, acc: map<string, int>, s: nat, k: string)
    requires Tier(keys, w) && Fresh(keys, acc) && k in keys
    ensures Total(keys, w) > 0
    ensures Wins(keys, w, acc, s + Total(keys, w), k) - Wins(keys, w, acc, s, k) == w[k]
  {
    Periodic(keys, w, acc, s);
    var total := Total(keys, w);
    Ledger(keys, w, acc, s, k);
    Ledger(keys, w, acc, s + total, k);
    var late, early := Wins(keys, w, acc, s + total, k), Wins(keys, w, acc, s, k);
    WindowShare(total, s, w[k], late, early);
  }

  lemma WindowShare(total: int, s: int, weight: int, late: int, early: int)
    requires total > 0 && (s + total) * weight - total * late == s * weight - total * early
    ensures late - early == weight
  {
    assert (s + total) * weight == s * weight + total * weight;
    assert total * (early + weight) == total * early + total * weight;
    SameShare(total, late, early + weight);
  }
}
