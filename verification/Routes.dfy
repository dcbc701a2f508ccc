/** The provider scheduler: priority tiers in ascending order, smooth weighted round-robin inside each. */
module Routes {
  import opened Sorting
  import opened Seqs
  import opened Keys
  import Swrr

  datatype Policy = Policy(priority: int, weight: int, enabled: bool)

  type Policies = map<string, Policy>
  type Counters = map<int, map<string, int>>

  const DefaultPolicy := Policy(0, 1, true)

  function PolicyOf(policies: Policies, provider: string): Policy {
    if provider in policies then policies[provider] else DefaultPolicy
  }

  predicate Usable(policies: Policies, provider: string) {
    PolicyOf(policies, provider).enabled && PolicyOf(policies, provider).weight > 0
  }

  predicate InTier(policies: Policies, provider: string, priority: int) {
    Usable(policies, provider) && PolicyOf(policies, provider).priority == priority
  }

  function Tiered(policies: Policies, priority: int): string -> bool {
    p => InTier(policies, p, priority)
  }

  function Unusable(policies: Policies): string -> bool {
    p => !Usable(policies, p)
  }

  function Other(winner: string): string -> bool {
    p => p != winner
  }

  function NotIn(ranked: seq<string>): string -> bool {
    p => p !in ranked
  }

  function TierOf(policies: Policies, candidates: seq<string>, priority: int): seq<string> {
    Filter(candidates, Tiered(policies, priority))
  }

  // ---- one tier ----

  /** What a draw adds to each accumulator; a provider without a policy gains one. */
  function Gains(policies: Policies, tier: seq<string>): Swrr.Weights {
    map p | p in tier :: if p in policies then policies[p].weight else 1
  }

  /** What the winner pays back; a provider without a policy is not counted. */
  function Counted(policies: Policies, tier: seq<string>): int {
    if tier == [] then 0
    else
      var last := tier[|tier| - 1];
      Counted(policies, tier[..|tier| - 1]) + if last in policies then policies[last].weight else 0
  }

  function ZeroFill(tier: seq<string>, state: map<string, int>): map<string, int> {
    if tier == [] then state
    else
      var filled := ZeroFill(tier[..|tier| - 1], state);
      var last := tier[|tier| - 1];
      if last in filled then filled else filled[last := 0]
  }

  function DrawTier(policies: Policies, tier: seq<string>, state: map<string, int>): (map<string, int>, seq<string>) {
    var zeroed := ZeroFill(tier, state);
    var total := Counted(policies, tier);
    if tier == [] || total <= 0 then (zeroed, tier)
    else
      var bumped := Swrr.Bump(tier, Gains(policies, tier), zeroed);
      var winner := Swrr.Best(tier, bumped);
      (bumped[winner := Swrr.Get(bumped, winner) - total], [winner] + Filter(tier, Other(winner)))
  }

  // ---- all tiers ----

  function InsertUnique(s: seq<int>, x: int): seq<int> {
    if s == [] || s[|s| - 1] < x then s + [x]
    else if s[|s| - 1] == x then s
    else InsertUnique(s[..|s| - 1], x) + [s[|s| - 1]]
  }

  function Priorities(policies: Policies, candidates: seq<string>): seq<int> {
    if candidates == [] then []
    else
      var front := Priorities(policies, candidates[..|candidates| - 1]);
      var last := candidates[|candidates| - 1];
      if Usable(policies, last) then InsertUnique(front, PolicyOf(policies, last).priority) else front
  }

  function StateOf(counters: Counters, priority: int): map<string, int> {
    if priority in counters then counters[priority] else map[]
  }

  function DrawTiers(policies: Policies, counters: Counters, candidates: seq<string>,
                     priorities: seq<int>): (Counters, seq<string>)
  {
    if priorities == [] then (counters, [])
    else
      var last := priorities[|priorities| - 1];
      var (before, ordered) := DrawTiers(policies, counters, candidates, priorities[..|priorities| - 1]);
      var (state, drawn) := DrawTier(policies, TierOf(policies, candidates, last), StateOf(before, last));
      (before[last := state], ordered + drawn)
  }

  function Order(policies: Policies, counters: Counters, candidates: seq<string>): (Counters, seq<string>) {
    var (after, ordered) := DrawTiers(policies, counters, candidates, Priorities(policies, candidates));
    (after, ordered + Filter(candidates, NotIn(ordered)))
  }

  lemma TierMembers(policies: Policies, candidates: seq<string>, priority: int)
    requires Distinct(candidates)
    ensures Distinct(TierOf(policies, candidates, priority))
    ensures forall p :: p in TierOf(policies, candidates, priority) <==>
              p in candidates && InTier(policies, p, priority)
  {
    FilterIn(candidates, Tiered(policies, priority));
    FilterDistinct(candidates, Tiered(policies, priority));
  }

  lemma NoTier(policies: Policies, priority: int)
    ensures TierOf(policies, [], priority) == []
  {
  }

  lemma TestTier(policies: Policies, provider: string, priority: int)
    ensures var policy := if provider in policies then policies[provider] else DefaultPolicy;
            InTier(policies, provider, priority) <==> policy.enabled && policy.weight > 0 && policy.priority == priority
  {
  }

  lemma TierListed(policies: Policies, candidates: seq<string>, priority: int)
    ensures TierOf(policies, candidates, priority) != [] <==> priority in Priorities(policies, candidates)
  {
    PrioritiesFacts(policies, candidates);
    FilterIn(candidates, Tiered(policies, priority));
    var tier := TierOf(policies, candidates, priority);
    if tier != [] {
      assert tier[0] in tier;
    }
  }

  lemma TierGrows(policies: Policies, candidates: seq<string>, i: nat, priority: int)
    requires i < |candidates|
    ensures TierOf(policies, candidates[..i + 1], priority)
         == TierOf(policies, candidates[..i], priority) + if InTier(policies, candidates[i], priority)
           then [candidates[i]] else []
  {
    assert candidates[..i + 1][..i] == candidates[..i];
  }

  // ---- the priority list ----

  lemma {:induction false} InsertUniqueFacts(s: seq<int>, x: int)
    requires Ascending(s)
    ensures Ascending(InsertUnique(s, x))
    ensures forall y :: y in InsertUnique(s, x) <==> y in s || y == x
  {
    if s != [] {
      var front, last := s[..|s| - 1], s[|s| - 1];
      assert s == front + [last];
      if last > x {
        InsertUniqueFacts(front, x);
        var r := InsertUnique(front, x);
        forall i | 0 <= i < |r| ensures r[i] < last {
          assert r[i] in r;
        }
      }
    }
  }

  lemma {:induction false} PrioritiesFacts(policies: Policies, candidates: seq<string>)
    ensures Ascending(Priorities(policies, candidates))
    ensures forall x :: x in Priorities(policies, candidates) <==> exists p :: p in candidates && InTier(policies, p, x)
  {
    if candidates != [] {
      var front, last := candidates[..|candidates| - 1], candidates[|candidates| - 1];
      assert candidates == front + [last];
      PrioritiesFacts(policies, front);
      var prio := PolicyOf(policies, last).priority;
      InsertUniqueFacts(Priorities(policies, front), prio);
      forall x ensures x in Priorities(policies, candidates) <==>
        exists p :: p in candidates && InTier(policies, p, x) {
        if x in Priorities(policies, candidates) {
          if x in Priorities(policies, front) {
            var p :| p in front && InTier(policies, p, x);
            assert p in candidates;
          } else {
            assert InTier(policies, last, x);
          }
        }
      }
    }
  }

  // ---- the order is a permutation, best tiers first ----

  lemma TierFacts(policies: Policies, tier: seq<string>, state: map<string, int>)
    requires Distinct(tier)
    ensures var drawn := DrawTier(policies, tier, state).1;
            Distinct(drawn) && forall p :: p in drawn <==> p in tier
  {
    if tier != [] && Counted(policies, tier) > 0 {
      var bumped := Swrr.Bump(tier, Gains(policies, tier), ZeroFill(tier, state));
      var winner := Swrr.Best(tier, bumped);
      Swrr.BestIsLargest(tier, bumped);
      FilterIn(tier, Other(winner));
      FilterDistinct(tier, Other(winner));
    }
  }

  ghost predicate Ranks(policies: Policies, ordered: seq<string>) {
    forall i, j :: 0 <= i < j < |ordered| ==>
      PolicyOf(policies, ordered[i]).priority <= PolicyOf(policies, ordered[j]).priority
  }

  lemma JoinTiers(policies: Policies, ordered: seq<string>, drawn: seq<string>, last: int)
    requires Distinct(ordered) && Ranks(policies, ordered) && Distinct(drawn)
    requires forall p :: p in ordered ==> PolicyOf(policies, p).priority < last
    requires forall p :: p in drawn ==> PolicyOf(policies, p).priority == last
    ensures Distinct(ordered + drawn) && Ranks(policies, ordered + drawn)
  {
  }

  lemma {:induction false} TiersFacts(policies: Policies, counters: Counters, candidates: seq<string>,
                                      priorities: seq<int>)
    requires Distinct(candidates) && Ascending(priorities)
    ensures var ordered := DrawTiers(policies, counters, candidates, priorities).1;
            && Distinct(ordered) && Ranks(policies, ordered)
            && (forall p :: p in ordered <==>
                 p in candidates && Usable(policies, p) && PolicyOf(policies, p).priority in priorities)
  {
    hide DrawTier;
    if priorities != [] {
      var front, last := priorities[..|priorities| - 1], priorities[|priorities| - 1];
      assert priorities == front + [last];
      TiersFacts(policies, counters, candidates, front);
      var (before, ordered) := DrawTiers(policies, counters, candidates, front);
      var tier := TierOf(policies, candidates, last);
      FilterIn(candidates, Tiered(policies, last));
      FilterDistinct(candidates, Tiered(policies, last));
      TierFacts(policies, tier, StateOf(before, last));
      JoinTiers(policies, ordered, DrawTier(policies, tier, StateOf(before, last)).1, last);
    }
  }

  /** The scheduler reorders the candidates: it neither drops nor repeats one. */
  lemma OrderPermutes(policies: Policies, counters: Counters, candidates: seq<string>)
    requires Distinct(candidates)
    ensures multiset(Order(policies, counters, candidates).1) == multiset(candidates)
  {
    OrderParts(policies, counters, candidates);
    SameMembers(Order(policies, counters, candidates).1, candidates);
  }

  /** `Order` is the usable candidates followed by the others in their given order. */
  lemma OrderParts(policies: Policies, counters: Counters, candidates: seq<string>)
    requires Distinct(candidates)
    ensures var ranked := DrawTiers(policies, counters, candidates, Priorities(policies, candidates)).1;
            var rest := Filter(candidates, Unusable(policies));
            && Order(policies, counters, candidates).1 == ranked + rest
            && Distinct(ranked + rest)
            && (forall p :: p in ranked <==> p in candidates && Usable(policies, p))
            && (forall p :: p in ranked + rest <==> p in candidates)
  {
    hide DrawTiers, Priorities;
    var priorities := Priorities(policies, candidates);
    PrioritiesFacts(policies, candidates);
    TiersFacts(policies, counters, candidates, priorities);
    var ranked := DrawTiers(policies, counters, candidates, priorities).1;
    forall p ensures p in ranked <==> p in candidates && Usable(policies, p) {
      if p in candidates && Usable(policies, p) {
        assert InTier(policies, p, PolicyOf(policies, p).priority);
      }
    }
    FilterSame(candidates, NotIn(ranked), Unusable(policies));
    FilterIn(candidates, Unusable(policies));
    FilterDistinct(candidates, Unusable(policies));
  }

  /** Every usable route precedes every disabled or weightless one, and priorities never decrease. */
  lemma OrderRanks(policies: Policies, counters: Counters, candidates: seq<string>, i: nat, j: nat)
    requires Distinct(candidates) && i < j < |Order(policies, counters, candidates).1|
    ensures var ordered := Order(policies, counters, candidates).1;
            Usable(policies, ordered[j]) ==>
              Usable(policies, ordered[i]) && PolicyOf(policies, ordered[i]).priority <= PolicyOf(policies,
                                                                                                  ordered[j]).priority
  {
    OrderParts(policies, counters, candidates);
    PrioritiesFacts(policies, candidates);
    TiersFacts(policies, counters, candidates, Priorities(policies, candidates));
    var ranked := DrawTiers(policies, counters, candidates, Priorities(policies, candidates)).1;
    var ordered := Order(policies, counters, candidates).1;
    FilterIn(candidates, Unusable(policies));
    if j < |ranked| {
      assert ordered[i] in ranked;
    } else {
      assert ordered[j] in Filter(candidates, Unusable(policies));
    }
  }

  // ---- exact shares ----

  /** What `ModelPolicies` guarantees and what makes the winner's payment match what was gained. */
  ghost predicate Covered(policies: Policies, candidates: seq<string>) {
    forall p :: p in candidates ==> p in policies
  }

  lemma {:induction false} CountedIsTotal(policies: Policies, tier: seq<string>, w: Swrr.Weights)
    requires Covered(policies, tier) && forall p :: p in tier ==> p in w && w[p] == policies[p].weight
    ensures Counted(policies, tier) == Swrr.Total(tier, w)
  {
    if tier != [] {
      assert tier == tier[..|tier| - 1] + [tier[|tier| - 1]];
      CountedIsTotal(policies, tier[..|tier| - 1], w);
    }
  }

  lemma {:induction false} ZeroFillReads(tier: seq<string>, state: map<string, int>, k: string)
    ensures Swrr.Get(ZeroFill(tier, state), k) == Swrr.Get(state, k)
  {
    if tier != [] {
      ZeroFillReads(tier[..|tier| - 1], state, k);
    }
  }

  lemma TierIsSwrr(policies: Policies, candidates: seq<string>, priority: int)
    requires Distinct(candidates) && Covered(policies, candidates)
    requires TierOf(policies, candidates, priority) != []
    ensures var tier := TierOf(policies, candidates, priority);
            Swrr.Tier(tier, Gains(policies, tier)) && Counted(policies, tier)
              == Swrr.Total(tier, Gains(policies, tier)) > 0
  {
    var tier := TierOf(policies, candidates, priority);
    FilterIn(candidates, Tiered(policies, priority));
    FilterDistinct(candidates, Tiered(policies, priority));
    CountedIsTotal(policies, tier, Gains(policies, tier));
    Swrr.TotalPositive(tier, Gains(policies, tier));
  }

  /** In a covered tier a draw is the plain smooth weighted one and its winner leads. */
  lemma DrawTierIsSwrr(policies: Policies, candidates: seq<string>, priority: int, state: map<string, int>,
                       acc: map<string, int>)
    requires Distinct(candidates) && Covered(policies, candidates)
    requires TierOf(policies, candidates, priority) != []
    requires forall k :: k in TierOf(policies, candidates, priority) ==> Swrr.Get(state, k) == Swrr.Get(acc, k)
    ensures var tier := TierOf(policies, candidates, priority);
            var w := Gains(policies, tier);
            && (forall k :: k in tier ==>
                 Swrr.Get(DrawTier(policies, tier, state).0, k) == Swrr.Get(Swrr.Draw(tier, w, acc), k))
            && |DrawTier(policies, tier, state).1| > 0
            && DrawTier(policies, tier, state).1[0] == Swrr.Winner(tier, w, acc)
  {
    var tier := TierOf(policies, candidates, priority);
    TierIsSwrr(policies, candidates, priority);
    forall k | k in tier ensures Swrr.Get(ZeroFill(tier, state), k) == Swrr.Get(acc, k) {
      ZeroFillReads(tier, state, k);
    }
    Swrr.DrawAgrees(tier, Gains(policies, tier), ZeroFill(tier, state), acc);
  }

  lemma {:induction false} TiersAreIndependent(policies: Policies, counters: Counters, candidates: seq<string>,
                                               priorities: seq<int>, priority: int)
    requires Ascending(priorities)
    ensures var (after, ordered) := DrawTiers(policies, counters, candidates, priorities);
            var tier := TierOf(policies, candidates, priority);
            if priority in priorities
            then StateOf(after, priority) == DrawTier(policies, tier, StateOf(counters, priority)).0
            else StateOf(after, priority) == StateOf(counters, priority)
  {
    hide DrawTier, TierOf;
    if priorities != [] {
      var front, last := priorities[..|priorities| - 1], priorities[|priorities| - 1];
      assert priorities == front + [last];
      TiersAreIndependent(policies, counters, candidates, front, priority);
    }
  }

  lemma {:induction false} TierSegment(policies: Policies, counters: Counters, candidates: seq<string>,
                                       priorities: seq<int>, priority: int)
    requires Distinct(candidates) && Ascending(priorities)
    ensures Filter(DrawTiers(policies, counters, candidates, priorities).1, Tiered(policies, priority))
         == if priority in priorities
            then DrawTier(policies, TierOf(policies, candidates, priority), StateOf(counters, priority)).1
            else []
  {
    if priorities != [] {
      var front, last := priorities[..|priorities| - 1], priorities[|priorities| - 1];
      var (before, ordered) := DrawTiers(policies, counters, candidates, front);
      var drawn := DrawTier(policies, TierOf(policies, candidates, last), StateOf(before, last)).1;
      assert priorities == front + [last] && last !in front
        && DrawTiers(policies, counters, candidates, priorities).1 == ordered + drawn;
      assert Ascending(front);
      hide *;
      TierSegment(policies, counters, candidates, front, priority);
      TiersAreIndependent(policies, counters, candidates, front, last);
      DrawnKeep(policies, candidates, last, StateOf(before, last), priority);
      SegmentStep(front, last, priority, ordered, drawn, Tiered(policies, priority),
                  DrawTier(policies, TierOf(policies, candidates, priority), StateOf(counters, priority)).1);
    }
  }

  lemma DrawnKeep(policies: Policies, candidates: seq<string>, last: int, state: map<string, int>, priority: int)
    requires Distinct(candidates)
    ensures forall p :: p in DrawTier(policies, TierOf(policies, candidates, last), state).1 ==>
              Tiered(policies, priority)(p) == (priority == last)
  {
    hide DrawTier, TierOf;
    TierMembers(policies, candidates, last);
    TierFacts(policies, TierOf(policies, candidates, last), state);
  }

  lemma SegmentStep(front: seq<int>, last: int, priority: int, ordered: seq<string>, drawn: seq<string>,
                    keep: string -> bool, own: seq<string>)
    requires last !in front && forall p :: p in drawn ==> keep(p) == (priority == last)
    requires Filter(ordered, keep) == (if priority in front then own else []) && (priority == last ==> drawn == own)
    ensures Filter(ordered + drawn, keep) == if priority in front + [last] then own else []
  {
    hide Filter;
    SegmentGrows(ordered, drawn, keep, priority == last);
  }

  lemma SegmentGrows(ordered: seq<string>, drawn: seq<string>, keep: string -> bool, own: bool)
    requires forall p :: p in drawn ==> keep(p) == own
    ensures Filter(ordered + drawn, keep) == if own then Filter(ordered, keep) + drawn else Filter(ordered, keep)
  {
    FilterAppend(ordered, drawn, keep);
    if own {
      FilterAll(drawn, keep);
    } else {
      FilterNone(drawn, keep);
    }
  }

  /** The providers of one tier, in the order a call ranked them. */
  function Ranking(policies: Policies, counters: Counters, candidates: seq<string>, priority: int): seq<string> {
    Filter(Order(policies, counters, candidates).1, Tiered(policies, priority))
  }

  function CountersAfter(policies: Policies, counters: Counters, candidates: seq<string>, n: nat): Counters {
    if n == 0 then counters else Order(policies, CountersAfter(policies, counters, candidates, n - 1), candidates).0
  }

  /** How many of the first `n` calls rank `k` first in its tier. */
  function Leads(policies: Policies, counters: Counters, candidates: seq<string>, priority: int, n: nat,
                 k: string): nat {
    if n == 0 then 0
    else
      var ranking := Ranking(policies, CountersAfter(policies, counters, candidates, n - 1), candidates, priority);
      Leads(policies, counters, candidates, priority, n - 1, k) + if ranking != [] && ranking[0] == k then 1 else 0
  }

  lemma CallDrawsTier(policies: Policies, counters: Counters, candidates: seq<string>, priority: int)
    requires Distinct(candidates) && TierOf(policies, candidates, priority) != []
    ensures var tier := TierOf(policies, candidates, priority);
            var drawn := DrawTier(policies, tier, StateOf(counters, priority));
            && StateOf(Order(policies, counters, candidates).0, priority) == drawn.0
            && Ranking(policies, counters, candidates, priority) == drawn.1
  {
    hide DrawTier, DrawTiers, Priorities, Filter;
    var priorities := Priorities(policies, candidates);
    PrioritiesFacts(policies, candidates);
    var tier := TierOf(policies, candidates, priority);
    FilterIn(candidates, Tiered(policies, priority));
    assert tier[0] in tier;
    assert priority in priorities;
    TiersAreIndependent(policies, counters, candidates, priorities, priority);
    TierSegment(policies, counters, candidates, priorities, priority);
    var ranked := DrawTiers(policies, counters, candidates, priorities).1;
    OrderParts(policies, counters, candidates);
    var rest := Filter(candidates, Unusable(policies));
    FilterIn(candidates, Unusable(policies));
    FilterAppend(ranked, rest, Tiered(policies, priority));
    FilterNone(rest, Tiered(policies, priority));
  }

  lemma {:induction false} CallsAreDraws(policies: Policies, counters: Counters, candidates: seq<string>,
                                         priority: int, n: nat, k: string)
    requires Distinct(candidates) && Covered(policies, candidates) && TierOf(policies, candidates, priority) != []
    ensures var tier := TierOf(policies, candidates, priority);
            var w := Gains(policies, tier);
            var acc := StateOf(counters, priority);
            && (forall p :: p in tier ==>
                 Swrr.Get(StateOf(CountersAfter(policies, counters, candidates, n), priority), p)
                   == Swrr.Get(Swrr.After(tier, w, acc, n), p))
            && Leads(policies, counters, candidates, priority, n, k) == Swrr.Wins(tier, w, acc, n, k)
  {
    hide DrawTier, Order, TierOf, Swrr.Draw;
    if n > 0 {
      CallsAreDraws(policies, counters, candidates, priority, n - 1, k);
      var before := CountersAfter(policies, counters, candidates, n - 1);
      var tier := TierOf(policies, candidates, priority);
      CallDrawsTier(policies, before, candidates, priority);
      DrawTierIsSwrr(policies, candidates, priority, StateOf(before, priority),
                     Swrr.After(tier, Gains(policies, tier), StateOf(counters, priority), n - 1));
    }
  }

  lemma LeadsAreWins(policies: Policies, counters: Counters, candidates: seq<string>, priority: int, n: nat, k: string)
    requires Distinct(candidates) && Covered(policies, candidates) && TierOf(policies, candidates, priority) != []
    ensures var tier := TierOf(policies, candidates, priority);
            Leads(policies, counters, candidates, priority, n, k)
              == Swrr.Wins(tier, Gains(policies, tier), StateOf(counters, priority), n, k)
  {
    hide *;
    CallsAreDraws(policies, counters, candidates, priority, n, k);
  }

  ghost predicate FreshTier(policies: Policies, counters: Counters, candidates: seq<string>, priority: int) {
    Swrr.Fresh(TierOf(policies, candidates, priority), StateOf(counters, priority))
  }

  lemma TierMember(policies: Policies, counters: Counters, candidates: seq<string>, priority: int, k: string)
    requires Distinct(candidates) && Covered(policies, candidates)
               && FreshTier(policies, counters, candidates, priority)
    requires k in candidates && InTier(policies, k, priority)
    ensures var tier := TierOf(policies, candidates, priority);
            var w := Gains(policies, tier);
            && tier != [] && Swrr.Tier(tier, w) && Swrr.Fresh(tier, StateOf(counters, priority))
            && Counted(policies, tier) == Swrr.Total(tier, w) > 0
            && k in tier && w[k] == policies[k].weight
  {
    hide Counted, Swrr.Total;
    FilterIn(candidates, Tiered(policies, priority));
    assert k in TierOf(policies, candidates, priority);
    TierIsSwrr(policies, candidates, priority);
  }

  lemma Window(policies: Policies, counters: Counters, candidates: seq<string>, priority: int, start: nat, k: string,
               tier: seq<string>, w: Swrr.Weights, total: int)
    requires Distinct(candidates) && Covered(policies, candidates) && tier != []
               && tier == TierOf(policies, candidates, priority)
    requires w == Gains(policies, tier) && Swrr.Tier(tier, w) && total == Swrr.Total(tier, w) > 0
    requires Swrr.Fresh(tier, StateOf(counters, priority)) && k in tier
    ensures Leads(policies, counters, candidates, priority, start + total, k)
          - Leads(policies, counters, candidates, priority, start, k) == w[k]
  {
    hide *;
    LeadsAreWins(policies, counters, candidates, priority, start, k);
    LeadsAreWins(policies, counters, candidates, priority, start + total, k);
    Swrr.EveryWindowIsExact(tier, w, StateOf(counters, priority), start, k);
  }

  /**
   Exact weighted fairness: from a fresh scheduler, in any window as long as the tier's total weight,
   every provider of the tier is ranked first in it exactly as often as its weight says.
   */
  lemma FairShare(policies: Policies, counters: Counters, candidates: seq<string>, priority: int, start: nat, k: string)
    requires Distinct(candidates) && Covered(policies, candidates)
               && FreshTier(policies, counters, candidates, priority)
    requires k in candidates && InTier(policies, k, priority)
    ensures var total := Counted(policies, TierOf(policies, candidates, priority));
            && total > 0
            && Leads(policies, counters, candidates, priority, start + total, k)
             - Leads(policies, counters, candidates, priority, start, k) == policies[k].weight
  {
    hide *;
    TierMember(policies, counters, candidates, priority, k);
    var tier := TierOf(policies, candidates, priority);
    Window(policies, counters, candidates, priority, start, k, tier, Gains(policies, tier), Counted(policies, tier));
  }

  /** At every moment a provider's lead count is less than one call above its exact share. */
  lemma NeverAheadOfShare(policies: Policies, counters: Counters, candidates: seq<string>, priority: int, t: nat,
                          k: string)
    requires Distinct(candidates) && Covered(policies, candidates)
               && FreshTier(policies, counters, candidates, priority)
    requires k in candidates && InTier(policies, k, priority)
    ensures var total := Counted(policies, TierOf(policies, candidates, priority));
            total * Leads(policies, counters, candidates, priority, t, k) < t * policies[k].weight + total
  {
    hide *;
    TierMember(policies, counters, candidates, priority, k);
    var tier := TierOf(policies, candidates, priority);
    LeadsAreWins(policies, counters, candidates, priority, t, k);
    Swrr.NeverARoundAhead(tier, Gains(policies, tier), StateOf(counters, priority), t, k);
  }

  /** After each full round the tier's accumulators are back at zero. */
  lemma RoundResets(policies: Policies, counters: Counters, candidates: seq<string>, priority: int, k: string)
    requires Distinct(candidates) && Covered(policies, candidates)
               && FreshTier(policies, counters, candidates, priority)
    requires k in candidates && InTier(policies, k, priority)
    ensures var total := Counted(policies, TierOf(policies, candidates, priority));
            total > 0 && FreshTier(policies, CountersAfter(policies, counters, candidates, total), candidates, priority)
  {
    hide TierOf, Gains, Counted, Swrr.Total, Swrr.Wins, Leads, Swrr.After, CountersAfter;
    TierMember(policies, counters, candidates, priority, k);
    var tier := TierOf(policies, candidates, priority);
    CallsAreDraws(policies, counters, candidates, priority, Counted(policies, tier), k);
    Swrr.FirstRoundIsExact(tier, Gains(policies, tier), StateOf(counters, priority));
  }

  /** The best-ranked tier leads the whole order. */
  lemma FirstTierLeads(policies: Policies, counters: Counters, candidates: seq<string>, priority: int)
    requires Distinct(candidates) && TierOf(policies, candidates, priority) != []
    requires forall p :: p in candidates && Usable(policies, p) ==> PolicyOf(policies, p).priority >= priority
    ensures |Order(policies, counters, candidates).1| > 0
    ensures [Order(policies, counters, candidates).1[0]] <= Ranking(policies, counters, candidates, priority)
  {
    hide Order, DrawTiers, Priorities, Filter;
    var ordered := Order(policies, counters, candidates).1;
    var tier := TierOf(policies, candidates, priority);
    FilterIn(candidates, Tiered(policies, priority));
    assert tier[0] in tier;
    OrderParts(policies, counters, candidates);
    var i :| 0 <= i < |ordered| && ordered[i] == tier[0];
    if i > 0 {
      OrderRanks(policies, counters, candidates, 0, i);
    }
    assert ordered[0] in candidates;
    assert ordered == [ordered[0]] + ordered[1..];
    FilterAppend([ordered[0]], ordered[1..], Tiered(policies, priority));
    FilterAll([ordered[0]], Tiered(policies, priority));
  }

  /** How many providers of a tier have no policy. */
  function Unpoliced(policies: Policies, tier: seq<string>): nat {
    if tier == [] then 0
    else Unpoliced(policies, tier[..|tier| - 1]) + if tier[|tier| - 1] in policies then 0 else 1
  }

  lemma {:induction false} UnpolicedNone(policies: Policies, tier: seq<string>)
    ensures Unpoliced(policies, tier) == 0 <==> Covered(policies, tier)
  {
    if tier != [] {
      assert tier == tier[..|tier| - 1] + [tier[|tier| - 1]];
      UnpolicedNone(policies, tier[..|tier| - 1]);
    }
  }

  /** A provider without a policy gains one that nobody pays back. */
  lemma {:induction false} GainsExceedCounted(policies: Policies, tier: seq<string>, w: Swrr.Weights)
    requires forall p :: p in tier ==> p in w && w[p] == if p in policies then policies[p].weight else 1
    ensures Swrr.Total(tier, w) == Counted(policies, tier) + Unpoliced(policies, tier)
  {
    if tier != [] {
      assert tier == tier[..|tier| - 1] + [tier[|tier| - 1]];
      GainsExceedCounted(policies, tier[..|tier| - 1], w);
    }
  }

  lemma {:induction false} SumReads(all: seq<string>, a: map<string, int>, b: map<string, int>)
    requires forall k :: Swrr.Get(a, k) == Swrr.Get(b, k)
    ensures Swrr.Sum(all, a) == Swrr.Sum(all, b)
  {
    if all != [] {
      SumReads(all[..|all| - 1], a, b);
    }
  }

  /** What a draw does to the sum of a tier's accumulators, whatever policies there are. */
  lemma DrawDrifts(policies: Policies, tier: seq<string>, state: map<string, int>)
    requires Distinct(tier)
    ensures Swrr.Sum(tier, DrawTier(policies, tier, state).0)
         == Swrr.Sum(tier, state) + if Counted(policies, tier) > 0 then Unpoliced(policies, tier) else 0
  {
    var zeroed, total := ZeroFill(tier, state), Counted(policies, tier);
    forall k ensures Swrr.Get(zeroed, k) == Swrr.Get(state, k) {
      ZeroFillReads(tier, state, k);
    }
    SumReads(tier, zeroed, state);
    if tier != [] && total > 0 {
      var w := Gains(policies, tier);
      GainsExceedCounted(policies, tier, w);
      var bumped := Swrr.Bump(tier, w, zeroed);
      Swrr.SumBump(tier, tier, w, zeroed);
      Swrr.BestIsLargest(tier, bumped);
      hide Counted, Unpoliced, Swrr.Sum, Swrr.Total, Swrr.Bump, Swrr.Best, ZeroFill, Gains, Filter;
      var winner := Swrr.Best(tier, bumped);
      Swrr.SumUpdate(tier, bumped, winner, Swrr.Get(bumped, winner) - total);
    }
  }

  /**
   A tier's draws keep the sum of its accumulators exactly when every provider of the tier has a policy,
   or when no weight is counted at all and nothing is drawn.
   */
  lemma ConservesIffCovered(policies: Policies, tier: seq<string>, state: map<string, int>)
    requires Distinct(tier)
    ensures Swrr.Sum(tier, DrawTier(policies, tier, state).0) == Swrr.Sum(tier, state)
       <==> Covered(policies, tier) || Counted(policies, tier) <= 0
  {
    DrawDrifts(policies, tier, state);
    UnpolicedNone(policies, tier);
  }

  // ---- the stored policies of one model ----

  function ModelPolicies(routes: seq<string>, stored: seq<(string, Policy)>): Policies {
    WithDefaults(routes, Stored(routes, stored))
  }

  function Stored(routes: seq<string>, stored: seq<(string, Policy)>): Policies {
    if stored == [] then map[]
    else
      var last := stored[|stored| - 1];
      var before := Stored(routes, stored[..|stored| - 1]);
      if last.0 in routes then before[last.0 := last.1] else before
  }

  function WithDefaults(routes: seq<string>, selected: Policies): Policies {
    if routes == [] then selected
    else
      var before := WithDefaults(routes[..|routes| - 1], selected);
      var last := routes[|routes| - 1];
      if last in before then before else before[last := DefaultPolicy]
  }

  function Normalize(policies: Policies): Policies {
    map p | p in policies :: if policies[p].enabled then policies[p] else policies[p].(weight := 0)
  }

  /** Every route of the model has a policy, so its tiers never leak weight. */
  lemma ModelPoliciesCover(routes: seq<string>, stored: seq<(string, Policy)>)
    ensures Covered(Normalize(ModelPolicies(routes, stored)), routes)
  {
    DefaultsCover(routes, Stored(routes, stored));
  }

  /** The last stored policy of a provider, if any was stored. */
  function LastStored(stored: seq<(string, Policy)>, provider: string): Policy {
    if stored == [] then DefaultPolicy
    else if stored[|stored| - 1].0 == provider then stored[|stored| - 1].1
    else LastStored(stored[..|stored| - 1], provider)
  }

  /** A route gets its last stored policy, or equal weight; policies of providers without a route are ignored. */
  lemma ModelPolicyIs(routes: seq<string>, stored: seq<(string, Policy)>)
    ensures forall p :: p in ModelPolicies(routes, stored) <==> p in routes
    ensures forall p :: p in routes ==> ModelPolicies(routes, stored)[p] == LastStored(stored, p)
  {
    StoredIs(routes, stored);
    WithDefaultsIs(routes, Stored(routes, stored));
  }

  lemma {:induction false} StoredIs(routes: seq<string>, stored: seq<(string, Policy)>)
    ensures forall p :: p in Stored(routes, stored) ==>
              p in routes && Stored(routes, stored)[p] == LastStored(stored, p)
    ensures forall p :: p in routes && p !in Stored(routes, stored) ==> LastStored(stored, p) == DefaultPolicy
  {
    if stored != [] {
      StoredIs(routes, stored[..|stored| - 1]);
    }
  }

  lemma {:induction false} WithDefaultsIs(routes: seq<string>, selected: Policies)
    ensures var all := WithDefaults(routes, selected);
            && (forall p :: p in all <==> p in selected || p in routes)
            && forall p :: p in all ==> all[p] == if p in selected then selected[p] else DefaultPolicy
  {
    if routes != [] {
      WithDefaultsIs(routes[..|routes| - 1], selected);
      assert routes == routes[..|routes| - 1] + [routes[|routes| - 1]];
    }
  }

  lemma {:induction false} DefaultsCover(routes: seq<string>, selected: Policies)
    ensures Covered(WithDefaults(routes, selected), routes)
  {
    if routes != [] {
      DefaultsCover(routes[..|routes| - 1], selected);
    }
  }

  // ---- the scheduler object ----

  class RouteScheduler {
    const policies: Policies
    var counters: Counters

    /** A disabled route keeps weight zero, so it can never win a tier. */
    constructor (given: Policies)
      ensures policies == Normalize(given) && counters == map[]
    {
      policies := map p | p in given :: if given[p].enabled then given[p] else given[p].(weight := 0);
      counters := map[];
    }

    /** The usable candidates, grouped by priority. */
    method Group(candidates: seq<string>) returns (tiers: map<int, seq<string>>)
      ensures forall x :: x in tiers <==> x in Priorities(policies, candidates)
      ensures forall x :: x in tiers ==> tiers[x] == TierOf(policies, candidates, x)
    {
      hide *;
      tiers := map[];
      forall x {
        NoTier(policies, x);
      }
      assert candidates[..0] == [];
      for i := 0 to |candidates|
        invariant forall x :: x in tiers <==> TierOf(policies, candidates[..i], x) != []
        invariant forall x :: x in tiers ==> tiers[x] == TierOf(policies, candidates[..i], x)
      {
        var policy := if candidates[i] in policies then policies[candidates[i]] else DefaultPolicy;
        forall x ensures TierOf(policies, candidates[..i + 1], x)
                      == TierOf(policies, candidates[..i], x)
                         + if policy.enabled && policy.weight > 0 && policy.priority == x then [candidates[i]] else []
        {
          TierGrows(policies, candidates, i, x);
          TestTier(policies, candidates[i], x);
        }
        if policy.enabled && policy.weight > 0 {
          var tier := if policy.priority in tiers then tiers[policy.priority] else [];
          tiers := tiers[policy.priority := tier + [candidates[i]]];
        }
      }
      assert candidates[..|candidates|] == candidates;
      forall x {
        TierListed(policies, candidates, x);
      }
    }

    method Rank(candidates: seq<string>) returns (ordered: seq<string>)
      modifies this
      ensures (counters, ordered) == Order(policies, old(counters), candidates)
    {
      hide Priorities, DrawTier;
      var tiers := Group(candidates);
      var priorities := SortedKeys(tiers.Keys);
      PrioritiesFacts(policies, candidates);
      AscendingUnique(priorities, Priorities(policies, candidates));
      ordered := [];
      for i := 0 to |priorities|
        invariant (counters, ordered) == DrawTiers(policies, old(counters), candidates, priorities[..i])
      {
        assert priorities[..i + 1][..i] == priorities[..i];
        assert priorities[i] in priorities;
        var drawn := Draw(tiers[priorities[i]], priorities[i]);
        ordered := ordered + drawn;
      }
      assert priorities[..|priorities|] == priorities;
      var rest := Unranked(candidates, ordered);
      ordered := ordered + rest;
    }

    /** The candidates no tier ranked, in their given order. */
    method Unranked(candidates: seq<string>, ranked: seq<string>) returns (rest: seq<string>)
      ensures rest == Filter(candidates, NotIn(ranked))
    {
      rest := [];
      for i := 0 to |candidates|
        invariant rest == Filter(candidates[..i], NotIn(ranked))
      {
        assert candidates[..i + 1][..i] == candidates[..i];
        if candidates[i] !in ranked {
          rest := rest + [candidates[i]];
        }
      }
      assert candidates[..|candidates|] == candidates;
    }

    /** Add up the tier's weights, creating the accumulators that are missing. */
    method Prepare(providers: seq<string>, given: map<string, int>) returns (state: map<string, int>, total: int)
      ensures state == ZeroFill(providers, given) && total == Counted(policies, providers)
    {
      state, total := given, 0;
      for i := 0 to |providers|
        invariant state == ZeroFill(providers[..i], given)
        invariant total == Counted(policies, providers[..i])
      {
        assert providers[..i + 1][..i] == providers[..i];
        if providers[i] !in state {
          state := state[providers[i] := 0];
        }
        if providers[i] in policies {
          total := total + policies[providers[i]].weight;
        }
      }
      assert providers[..|providers|] == providers;
    }

    /** Give every accumulator its gain. */
    method Gain(providers: seq<string>, given: map<string, int>) returns (state: map<string, int>)
      ensures state == Swrr.Bump(providers, Gains(policies, providers), given)
    {
      ghost var gains := Gains(policies, providers);
      state := given;
      for i := 0 to |providers|
        invariant state == Swrr.Bump(providers[..i], gains, given)
      {
        assert providers[..i + 1][..i] == providers[..i];
        var gain := if providers[i] in policies then policies[providers[i]].weight else 1;
        state := state[providers[i] := Swrr.Get(state, providers[i]) + gain];
      }
      assert providers[..|providers|] == providers;
    }

    /** The first provider whose accumulator no other exceeds. */
    method Lead(providers: seq<string>, state: map<string, int>) returns (winner: string)
      requires providers != []
      ensures winner == Swrr.Best(providers, state)
    {
      winner := providers[0];
      for i := 1 to |providers|
        invariant winner == Swrr.Best(providers[..i], state)
      {
        assert providers[..i + 1][..i] == providers[..i];
        if Swrr.Get(state, providers[i]) > Swrr.Get(state, winner) {
          winner := providers[i];
        }
      }
      assert providers[..|providers|] == providers;
    }

    method Others(providers: seq<string>, winner: string) returns (others: seq<string>)
      ensures others == Filter(providers, Other(winner))
    {
      others := [];
      for i := 0 to |providers|
        invariant others == Filter(providers[..i], Other(winner))
      {
        assert providers[..i + 1][..i] == providers[..i];
        if providers[i] != winner {
          others := others + [providers[i]];
        }
      }
      assert providers[..|providers|] == providers;
    }

    method Draw(providers: seq<string>, priority: int) returns (ordered: seq<string>)
      modifies this
      ensures var (state, drawn) := DrawTier(policies, providers, StateOf(old(counters), priority));
              counters == old(counters)[priority := state] && ordered == drawn
    {
      hide Swrr.Bump, Swrr.Best, Filter, ZeroFill, Counted;
      var given := if priority in counters then counters[priority] else map[];
      var state, total := Prepare(providers, given);
      if total <= 0 || providers == [] {
        counters := counters[priority := state];
        return providers;
      }
      state := Gain(providers, state);
      var winner := Lead(providers, state);
      state := state[winner := Swrr.Get(state, winner) - total];
      counters := counters[priority := state];
      var others := Others(providers, winner);
      ordered := [winner] + others;
    }
  }
}
