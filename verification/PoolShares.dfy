/** What the three strategies promise over consecutive requests, said of `Acquire` itself. */
module PoolShares {
  import opened Chunks
  import opened Sorting
  import opened Seqs
  import opened PoolCore
  import opened Pools
  import Lex
  import Swrr

  /** What a request asks a pool for: the pin of its conversation, and the lease counts it finds. */
  datatype Ask = Ask(pin: Option<string>, tried: set<string>, model: string, now: real, flights: map<string, nat>)

  /** No usable pin, and these accounts healthy. */
  ghost predicate Unpinned(c: Core, a: Ask, healthy: seq<string>) {
    && Inv(c) && a.flights.Keys == c.live.Keys && Healthy(c, a.tried, a.model, a.now) == healthy
    && (a.pin.Some? ==> !PinUsable(c, a.pin.value, a.tried, a.model, a.now))
  }

  /** A request's first acquire took `key` and left `d`. */
  ghost predicate Took(c: Core, a: Ask, key: string, d: Core) {
    Inv(c) && a.flights.Keys == c.live.Keys
      && Acquire(c, a.pin, a.tried, a.model, a.now, a.flights, true) == (Some(key), d)
  }

  /** Consecutive advancing acquires that no pin answers, with one fixed healthy set. */
  ghost predicate Run(cores: seq<Core>, asks: seq<Ask>, keys: seq<string>, healthy: seq<string>) {
    && |cores| == |asks| + 1 && |keys| == |asks| && healthy != []
    && forall i :: 0 <= i < |asks| ==>
         Unpinned(cores[i], asks[i], healthy) && Took(cores[i], asks[i], keys[i], cores[i + 1])
  }

  lemma TookChooses(c: Core, a: Ask, healthy: seq<string>, key: string, d: Core)
    requires Unpinned(c, a, healthy) && healthy != [] && Took(c, a, key, d)
    ensures c.order != [] && Distinct(healthy) && forall k :: k in healthy ==>
              k in c.live && k in a.flights && k in c.order
    ensures (key, d) == Choose(c, healthy, a.flights, true)
    ensures Inv(d) && d == c.(rr := d.rr, swrr := d.swrr)
  {
    EligibleMembers(c, a.tried, a.model, a.now);
    AcquireKeepsInv(c, a.pin, a.tried, a.model, a.now, a.flights, true);
    assert forall k :: k in c.order <==> k in c.live;
    hide Choose, Soonest, PinUsable, Eligible, Inv;
    assert healthy[0] in healthy;
  }

  /** Only cursor and accumulators move. */
  lemma {:induction false} Steady(cores: seq<Core>, asks: seq<Ask>, keys: seq<string>, healthy: seq<string>, n: nat)
    requires Run(cores, asks, keys, healthy) && n < |cores|
    ensures cores[n] == cores[0].(rr := cores[n].rr, swrr := cores[n].swrr)
  {
    hide Unpinned, Took;
    if n > 0 {
      Steady(cores, asks, keys, healthy, n - 1);
      TookChooses(cores[n - 1], asks[n - 1], healthy, keys[n - 1], cores[n]);
    }
  }

  lemma StrategyStays(cores: seq<Core>, asks: seq<Ask>, keys: seq<string>, healthy: seq<string>, n: nat)
    requires Run(cores, asks, keys, healthy) && n < |cores|
    ensures cores[n].strategy == cores[0].strategy
  {
    Steady(cores, asks, keys, healthy, n);
  }

  // ---- round robin ----

  lemma TookRotates(c: Core, a: Ask, healthy: seq<string>, key: string, d: Core)
    requires Unpinned(c, a, healthy) && healthy != [] && Took(c, a, key, d) && c.strategy.RoundRobin?
    ensures c.order != [] && Rotate(c.order, healthy, c.rr) == (key, d.rr)
  {
    TookChooses(c, a, healthy, key, d);
    hide Unpinned, Took, Rotate, FirstToFill, DrawWeighted;
  }

  lemma {:induction false} RunFollowsRing(cores: seq<Core>, asks: seq<Ask>, keys: seq<string>, healthy: seq<string>,
                                          n: nat)
    requires Run(cores, asks, keys, healthy) && n <= |asks| && cores[0].strategy.RoundRobin? && cores[0].order != []
    ensures Draws(cores[0].order, healthy, cores[0].rr, n) == (keys[..n], cores[n].rr)
  {
    hide Unpinned, Took;
    if n > 0 {
      RunFollowsRing(cores, asks, keys, healthy, n - 1);
      Steady(cores, asks, keys, healthy, n - 1);
      TookRotates(cores[n - 1], asks[n - 1], healthy, keys[n - 1], cores[n]);
      hide Rotate, Run;
      assert keys[..n] == keys[..n - 1] + [keys[n - 1]];
    }
  }

  /** What the first request of a run tells. */
  lemma RunStarts(cores: seq<Core>, asks: seq<Ask>, keys: seq<string>, healthy: seq<string>)
    requires Run(cores, asks, keys, healthy) && asks != []
    ensures Distinct(healthy) && Distinct(cores[0].order) && cores[0].rr < |cores[0].order|
    ensures forall k :: k in healthy ==> k in cores[0].order
  {
    TookChooses(cores[0], asks[0], healthy, keys[0], cores[1]);
    assert Inv(cores[0]);
    hide Healthy, Acquire, KeyLess, Sorted, Issued;
  }

  lemma RingTakesAll(cores: seq<Core>, asks: seq<Ask>, keys: seq<string>, healthy: seq<string>)
    requires Run(cores, asks, keys, healthy) && cores[0].strategy.RoundRobin? && |asks| == |healthy|
    ensures multiset(keys) == multiset(healthy) && Distinct(healthy)
  {
    RunStarts(cores, asks, keys, healthy);
    assert keys[..|healthy|] == keys;
    hide *;
    RunFollowsRing(cores, asks, keys, healthy, |healthy|);
    RoundRobinIsFair(cores[0].order, healthy, cores[0].rr);
  }

  /** Round robin: with k accounts healthy, any k consecutive requests take each of them exactly once. */
  lemma RoundRobinTakesTurns(cores: seq<Core>, asks: seq<Ask>, keys: seq<string>, healthy: seq<string>, start: nat)
    requires Run(cores, asks, keys, healthy) && cores[0].strategy.RoundRobin? && start + |healthy| <= |asks|
    ensures multiset(keys[start..start + |healthy|]) == multiset(healthy) && Distinct(healthy)
  {
    hide *;
    RunSizes(cores, asks, keys, healthy);
    RunFrom(cores, asks, keys, healthy, start, |healthy|);
    StrategyStays(cores, asks, keys, healthy, start);
    FirstOfRest(cores, start, |healthy|);
    RingTakesAll(cores[start..start + |healthy| + 1], asks[start..start + |healthy|], keys[start..start + |healthy|],
                 healthy);
  }

  lemma RunSizes(cores: seq<Core>, asks: seq<Ask>, keys: seq<string>, healthy: seq<string>)
    requires Run(cores, asks, keys, healthy)
    ensures |cores| == |asks| + 1 && |keys| == |asks| && healthy != []
  {
  }

  lemma FirstOfRest(cores: seq<Core>, start: nat, k: nat)
    requires start + k < |cores|
    ensures cores[start..start + k + 1] != [] && cores[start..start + k + 1][0] == cores[start]
  {
  }

  lemma RunFrom(cores: seq<Core>, asks: seq<Ask>, keys: seq<string>, healthy: seq<string>, start: nat, k: nat)
    requires Run(cores, asks, keys, healthy) && start + k <= |asks|
    ensures Run(cores[start..start + k + 1], asks[start..start + k], keys[start..start + k], healthy)
  {
    hide Unpinned, Took;
  }

  // ---- weighted ----

  lemma {:induction false} RunDrawsByWeight(cores: seq<Core>, asks: seq<Ask>, keys: seq<string>, healthy: seq<string>,
                                            n: nat, k: string)
    requires Run(cores, asks, keys, healthy) && n <= |asks| && cores[0].strategy.Weighted?
    ensures SwrrRun(cores[0], healthy, n) == cores[n].swrr
    ensures TimesDrawn(cores[0], healthy, n, k) == multiset(keys[..n])[k]
  {
    hide Unpinned, Took;
    if n > 0 {
      RunDrawsByWeight(cores, asks, keys, healthy, n - 1, k);
      Steady(cores, asks, keys, healthy, n - 1);
      TookChooses(cores[n - 1], asks[n - 1], healthy, keys[n - 1], cores[n]);
      SameDraw(cores[0], cores[n - 1], healthy);
      hide DrawWeighted;
      assert keys[..n] == keys[..n - 1] + [keys[n - 1]];
    }
  }

  /** A weighted draw looks at the weights and the accumulators only. */
  lemma SameDraw(c: Core, d: Core, healthy: seq<string>)
    requires healthy != [] && d == c.(rr := d.rr, swrr := d.swrr)
    ensures DrawWeighted(d, healthy, true) == DrawWeighted(c.(swrr := d.swrr), healthy, true)
  {
    assert Weights(d, healthy) == Weights(c.(swrr := d.swrr), healthy);
  }

  /**
   Weighted: from accumulators at zero, any window of requests as long as the healthy accounts' total weight
   takes each of them exactly as often as its weight.
   */
  lemma WeightedTakesShares(cores: seq<Core>, asks: seq<Ask>, keys: seq<string>, healthy: seq<string>, start: nat,
                            k: string)
    requires Run(cores, asks, keys, healthy) && cores[0].strategy.Weighted? && Swrr.Fresh(healthy, cores[0].swrr)
    requires k in healthy && start + Swrr.Total(healthy, Weights(cores[0], healthy)) <= |asks|
    ensures var total := Swrr.Total(healthy, Weights(cores[0], healthy));
            total > 0 && multiset(keys[start..start + total])[k] == WeightOf(cores[0], k)
  {
    hide *;
    RunSizes(cores, asks, keys, healthy);
    WeightsAdd(cores[0], healthy);
    var total := Swrr.Total(healthy, Weights(cores[0], healthy));
    RunStarts(cores, asks, keys, healthy);
    WeightedShareIsExact(cores[0], healthy, start, k);
    RunDrawsByWeight(cores, asks, keys, healthy, start, k);
    RunDrawsByWeight(cores, asks, keys, healthy, start + total, k);
    CountsAdd(keys, start, start + total, k);
  }

  lemma WeightsAdd(c: Core, healthy: seq<string>)
    requires healthy != []
    ensures forall k :: k in healthy ==> k in Weights(c, healthy)
    ensures Swrr.Total(healthy, Weights(c, healthy)) > 0
  {
    hide Swrr.Total;
    Swrr.TotalPositive(healthy, Weights(c, healthy));
  }

  lemma CountsAdd(keys: seq<string>, a: nat, b: nat, k: string)
    requires a <= b <= |keys|
    ensures multiset(keys[..a])[k] + multiset(keys[a..b])[k] == multiset(keys[..b])[k]
  {
    assert keys[..b] == keys[..a] + keys[a..b];
  }

  // ---- fill first ----

  /**
   Fill first: no healthy account is heavier than the one taken, none as heavy is less busy, and among equals
   none has a smaller key; cursor and accumulators stay.
   */
  lemma FillFirstTakesHeaviest(c: Core, a: Ask, healthy: seq<string>, key: string, d: Core)
    requires Unpinned(c, a, healthy) && healthy != [] && Took(c, a, key, d) && c.strategy.FillFirst?
    ensures key in healthy && d == c
    ensures forall k :: k in healthy ==> k in a.flights
    ensures forall k :: k in healthy ==>
              && WeightOf(c, k) <= WeightOf(c, key)
              && (WeightOf(c, k) == WeightOf(c, key) ==>
                   && a.flights[key] <= a.flights[k]
                   && (a.flights[key] == a.flights[k] ==> !Lex.Less(k, key)))
  {
    TookChooses(c, a, healthy, key, d);
    FillFirstIsLeast(c, a.flights, healthy);
    hide WeightOf, Lex.Less, Unpinned, Took;
  }

  // ---- over whole requests ----

  /** An undisturbed request: what it found and asked, and what each account's turn left of the pool. */
  datatype Request = Request(pin: Option<string>, model: string, script: nat -> Attempt, clock: nat -> real,
                             flights: map<string, nat>, asked: seq<string>, cores: seq<Core>)

  function AskOf(r: Request): Ask {
    Ask(r.pin, {}, r.model, r.clock(0), r.flights)
  }

  /** One request after another; only lease counts may change in between. */
  ghost predicate InTurn(cores: seq<Core>, requests: seq<Request>) {
    && |cores| == |requests| + 1
    && forall i :: 0 <= i < |requests| ==> Serves(cores[i], requests[i], cores[i + 1])
  }

  ghost predicate Serves(c: Core, r: Request, d: Core) {
    Follows(c, r.pin, r.model, r.script, r.clock, r.flights, r.asked, r.cores) && d == r.cores[|r.asked|]
  }

  /** Every request was served by the first account it asked, no usable pin named that one, and these were healthy. */
  ghost predicate ServedAtOnce(cores: seq<Core>, requests: seq<Request>, healthy: seq<string>) {
    && InTurn(cores, requests) && healthy != []
    && forall i :: 0 <= i < |requests| ==>
         && |requests[i].asked| == 1 && requests[i].script(0).result.Served?
         && Unpinned(cores[i], AskOf(requests[i]), healthy)
  }

  function Asks(requests: seq<Request>): seq<Ask> {
    seq(|requests|, i requires 0 <= i < |requests| => AskOf(requests[i]))
  }

  /** The accounts that served. */
  function Servers(requests: seq<Request>): seq<string>
    requires forall r :: r in requests ==> r.asked != []
  {
    seq(|requests|, i requires 0 <= i < |requests| => requests[i].asked[0])
  }

  lemma ServedTook(c: Core, r: Request, d: Core)
    requires Serves(c, r, d) && |r.asked| == 1 && r.script(0).result.Served?
    ensures Took(c, AskOf(r), r.asked[0], d)
  {
    assert r.asked[..0] == [];
    assert PicksNext(r.pin, r.asked[..0], r.asked[0], r.model, r.script(0), r.clock(0), r.clock(1), r.flights,
                     r.cores[0],
                     r.cores[1]);
    hide PicksNext, Acquire, Inv;
    FirstPick(c, r.pin, r.asked[0], r.model, r.script(0), r.clock(0), r.clock(1), r.flights, d);
  }

  lemma RequestsRun(cores: seq<Core>, requests: seq<Request>, healthy: seq<string>)
    requires ServedAtOnce(cores, requests, healthy)
    ensures forall r :: r in requests ==> r.asked != []
    ensures Run(cores, Asks(requests), Servers(requests), healthy)
  {
    hide Unpinned, Took, Serves;
    forall i | 0 <= i < |requests|
      ensures Took(cores[i], AskOf(requests[i]), requests[i].asked[0], cores[i + 1])
    {
      ServedTook(cores[i], requests[i], cores[i + 1]);
    }
    hide AskOf;
  }

  /** Round robin: any k consecutive requests are served by the k healthy accounts, each once. */
  lemma RequestsTakeTurns(cores: seq<Core>, requests: seq<Request>, healthy: seq<string>, start: nat)
    requires ServedAtOnce(cores, requests, healthy) && cores[0].strategy.RoundRobin?
    requires start + |healthy| <= |requests|
    ensures forall r :: r in requests ==> r.asked != []
    ensures multiset(Servers(requests)[start..start + |healthy|]) == multiset(healthy) && Distinct(healthy)
  {
    hide Run, Serves, Unpinned;
    RequestsRun(cores, requests, healthy);
    RoundRobinTakesTurns(cores, Asks(requests), Servers(requests), healthy, start);
  }

  /** Weighted: any window as long as the total weight is served by each healthy account exactly weight times. */
  lemma RequestsShareByWeight(cores: seq<Core>, requests: seq<Request>, healthy: seq<string>, start: nat, k: string)
    requires ServedAtOnce(cores, requests, healthy) && cores[0].strategy.Weighted? && k in healthy
    requires Swrr.Fresh(healthy, cores[0].swrr)
    requires start + Swrr.Total(healthy, Weights(cores[0], healthy)) <= |requests|
    ensures forall r :: r in requests ==> r.asked != []
    ensures var total := Swrr.Total(healthy, Weights(cores[0], healthy));
            total > 0 && multiset(Servers(requests)[start..start + total])[k] == WeightOf(cores[0], k)
  {
    hide Run, Serves, Unpinned, Swrr.Total, Swrr.Fresh, Weights, WeightOf;
    RequestsRun(cores, requests, healthy);
    WeightedTakesShares(cores, Asks(requests), Servers(requests), healthy, start, k);
  }

  /** A conversation whose pin can serve is asked there first, and that moves neither cursor nor accumulators. */
  lemma PinnedIsAskedFirst(c: Core, pin: string, model: string, script: nat -> Attempt, clock: nat -> real,
                           flights: map<string, nat>, asked: seq<string>, cores: seq<Core>)
    requires PinUsable(c, pin, {}, model, clock(0))
    requires Follows(c, Some(pin), model, script, clock, flights, asked, cores)
    requires asked == [] ==> Finds(c, Some(pin), {}, model, clock(0), flights, true, None, c)
    ensures asked != [] && asked[0] == pin && cores[|asked|].rr == c.rr && cores[|asked|].swrr == c.swrr
  {
    hide Inv, Drawn, PinUsable, PicksNext;
    if asked != [] {
      OneDrawPerRequest(c, Some(pin), model, script, clock, flights, asked, cores, |asked|);
    }
  }
}
