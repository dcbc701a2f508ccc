/** The bookkeeping of one provider's account pool, as values: what each critical section computes. */
module PoolCore {
  import opened Chunks
  import opened Sorting
  import opened Seqs
  import Lex
  import Swrr

  const COOLDOWN := 30.0
  const BLOCK_MAX := 86400.0
  const DEFAULT_WEIGHT := 100

  datatype Strategy = RoundRobin | Weighted | FillFirst

  /** The identity of one loaded credential: its provider instance and when it was installed. */
  datatype Ident = Ident(provider: int, generation: nat)

  type Block = (string, string)

  datatype Core = Core(
    live: map<string, Ident>, order: seq<string>, rr: nat,
    failed: map<string, real>, blocked: map<Block, real>, hard: set<Block>,
    generation: nat, strategy: Strategy, weights: map<string, int>, swrr: map<string, int>)

  function KeyLess(): (string, string) -> bool {
    (a, b) => Lex.Less(a, b)
  }

  ghost predicate Inv(c: Core) {
    && Sorted(c.order, KeyLess()) && Distinct(c.order) && (forall k :: k in c.order <==> k in c.live)
    && (if c.order == [] then c.rr == 0 else c.rr < |c.order|)
    && c.failed.Keys <= c.live.Keys && c.swrr.Keys <= c.live.Keys
    && Issued(c.live, c.generation)
    && (forall k :: k in c.weights ==> c.weights[k] > 0)
  }

  /** Nothing about the bookkeeping but its bounds matters to the invariant. */
  lemma InvAgain(c: Core, w: Core)
    requires Inv(c) && w.live == c.live && w.order == c.order && w.generation == c.generation
    requires if w.order == [] then w.rr == 0 else w.rr < |w.order|
    requires w.failed.Keys <= w.live.Keys && w.swrr.Keys <= w.live.Keys && forall k :: k in w.weights ==>
               w.weights[k] > 0
    ensures Inv(w)
  {
    hide Issued, Sorted, Distinct, KeyLess;
  }

  /** Every generation was handed out once. */
  ghost predicate Issued(live: map<string, Ident>, generation: nat) {
    && (forall k :: k in live ==> 0 < live[k].generation <= generation)
    && (forall k, l :: k in live && l in live && k != l ==> live[k].generation != live[l].generation)
  }

  // ---- who may serve ----

  function FailedUntil(c: Core, key: string): real {
    if key in c.failed then c.failed[key] else 0.0
  }

  function BlockedUntil(c: Core, key: string, model: string): real {
    if (key, model) in c.blocked then c.blocked[(key, model)] else 0.0
  }

  function Free(c: Core, tried: set<string>, model: string): string -> bool {
    key => (key, model) !in c.hard && key !in tried
  }

  function Eligible(c: Core, tried: set<string>, model: string): seq<string> {
    Filter(c.order, Free(c, tried, model))
  }

  predicate Cooling(c: Core, key: string, model: string, now: real) {
    FailedUntil(c, key) > now || BlockedUntil(c, key, model) > now
  }

  function Warm(c: Core, model: string, now: real): string -> bool {
    key => !Cooling(c, key, model, now)
  }

  function Healthy(c: Core, tried: set<string>, model: string, now: real): seq<string> {
    Filter(Eligible(c, tried, model), Warm(c, model, now))
  }

  /** Earlier quota reset first, then earlier end of the cooldown. */
  predicate ResetsBefore(c: Core, model: string, a: string, b: string) {
    if BlockedUntil(c, a, model) == BlockedUntil(c, b, model) then FailedUntil(c, a) < FailedUntil(c, b)
    else BlockedUntil(c, a, model) < BlockedUntil(c, b, model)
  }

  function ResetLess(c: Core, model: string): (string, string) -> bool {
    (a, b) => ResetsBefore(c, model, a, b)
  }

  lemma ResetOrder(c: Core, model: string)
    ensures StrictWeakOrder(ResetLess(c, model))
  {
  }

  function Soonest(c: Core, eligible: seq<string>, model: string): string
    requires eligible != []
  {
    SortSize(eligible, ResetLess(c, model));
    Sort(eligible, ResetLess(c, model))[0]
  }

  lemma {:induction false} SortSize<T>(s: seq<T>, less: (T, T) -> bool)
    ensures |Sort(s, less)| == |s|
  {
    if s != [] {
      SortSize(s[..|s| - 1], less);
      InsertMembers(Sort(s[..|s| - 1], less), s[|s| - 1], less);
    }
  }

  // ---- the three strategies ----

  function WeightOf(c: Core, key: string): int {
    if key in c.weights && c.weights[key] > 0 then c.weights[key] else DEFAULT_WEIGHT
  }

  /** Walk the ring from `at`; the position of the first allowed key, or the ring size. */
  function Walk(order: seq<string>, allowed: set<string>, start: nat, offset: nat): nat
    requires start < |order| && offset <= |order|
    decreases |order| - offset
  {
    if offset == |order| then |order|
    else if order[(start + offset) % |order|] in allowed then (start + offset) % |order|
    else Walk(order, allowed, start, offset + 1)
  }

  function Members(keys: seq<string>): set<string> {
    set k | k in keys
  }

  function Rotate(order: seq<string>, healthy: seq<string>, rr: nat): (string, nat)
    requires order != [] && healthy != []
  {
    var at := Walk(order, Members(healthy), rr % |order|, 0);
    if at < |order| then (order[at], (at + 1) % |order|) else (healthy[0], rr)
  }

  function Weights(c: Core, keys: seq<string>): Swrr.Weights {
    map k | k in keys :: WeightOf(c, k)
  }

  lemma WeightsKeys(c: Core, keys: seq<string>)
    ensures forall k :: k in keys ==> k in Weights(c, keys)
  {
  }

  lemma SameWeight(c: Core, d: Core, keys: seq<string>, key: string)
    requires c.weights == d.weights && key in keys
    ensures key in Weights(c, keys) && Weights(c, keys)[key] == WeightOf(d, key)
  {
  }

  /** A retry reads the accumulators without moving them; a lone candidate needs no draw. */
  function DrawWeighted(c: Core, healthy: seq<string>, advance: bool): (string, map<string, int>)
    requires healthy != []
  {
    if |healthy| == 1 then (healthy[0], c.swrr)
    else if advance then (Swrr.Winner(healthy, Weights(c, healthy), c.swrr),
                          Swrr.Draw(healthy, Weights(c, healthy), c.swrr))
    else (Swrr.Best(healthy, c.swrr), c.swrr)
  }

  predicate FillsBefore(c: Core, flights: map<string, nat>, a: string, b: string)
    requires a in flights && b in flights
  {
    if WeightOf(c, a) != WeightOf(c, b) then WeightOf(c, a) > WeightOf(c, b)
    else if flights[a] != flights[b] then flights[a] < flights[b]
    else Lex.Less(a, b)
  }

  function FirstToFill(c: Core, flights: map<string, nat>, healthy: seq<string>): (k: string)
    requires healthy != [] && forall k :: k in healthy ==> k in flights
    ensures k in healthy
  {
    if |healthy| == 1 then healthy[0]
    else
      var best := FirstToFill(c, flights, healthy[..|healthy| - 1]);
      if FillsBefore(c, flights, healthy[|healthy| - 1], best) then healthy[|healthy| - 1] else best
  }

  lemma FirstAlone(c: Core, flights: map<string, nat>, healthy: seq<string>)
    requires healthy != [] && forall k :: k in healthy ==> k in flights
    ensures FirstToFill(c, flights, healthy[..1]) == healthy[0]
  {
  }

  lemma FirstGrows(c: Core, flights: map<string, nat>, healthy: seq<string>, i: nat)
    requires 1 <= i < |healthy| && forall k :: k in healthy ==> k in flights
    ensures var best := FirstToFill(c, flights, healthy[..i]);
            FirstToFill(c, flights, healthy[..i + 1]) == if FillsBefore(c, flights, healthy[i], best) then healthy[i]
              else best
  {
    assert healthy[..i + 1][..i] == healthy[..i];
  }

  function Choose(c: Core, healthy: seq<string>, flights: map<string, nat>, advance: bool): (string, Core)
    requires c.order != [] && healthy != [] && forall k :: k in healthy ==> k in flights
  {
    match c.strategy
    case Weighted =>
      var (key, swrr) := DrawWeighted(c, healthy, advance);
      (key, c.(swrr := swrr))
    case FillFirst => (FirstToFill(c, flights, healthy), c)
    case RoundRobin =>
      var (key, rr) := Rotate(c.order, healthy, c.rr);
      (key, if advance then c.(rr := rr) else c)
  }

  // ---- acquire ----

  predicate PinUsable(c: Core, key: string, tried: set<string>, model: string, now: real) {
    key !in tried && key in c.live && (key, model) !in c.hard && !Cooling(c, key, model, now)
  }

  function Drawn(c: Core, tried: set<string>, model: string, now: real, flights: map<string, nat>,
                 advance: bool): (Option<string>, Core)
    requires Inv(c) && flights.Keys == c.live.Keys
  {
    var eligible := Eligible(c, tried, model);
    var healthy := Healthy(c, tried, model, now);
    EligibleMembers(c, tried, model, now);
    if eligible == [] then (None, c)
    else if healthy != [] then
      var (key, after) := Choose(c, healthy, flights, advance);
      (Some(key), after)
    else (Some(Soonest(c, eligible, model)), c)
  }

  /** `pin` is the account the conversation is pinned to, if any. */
  function Acquire(c: Core, pin: Option<string>, tried: set<string>, model: string, now: real, flights: map<string,
                   nat>, advance: bool)
    : (Option<string>, Core)
    requires Inv(c) && flights.Keys == c.live.Keys
  {
    if pin.Some? && PinUsable(c, pin.value, tried, model, now) then (pin, c)
    else Drawn(c, tried, model, now, flights, advance)
  }

  lemma EligibleMembers(c: Core, tried: set<string>, model: string, now: real)
    requires Inv(c)
    ensures forall k :: k in Eligible(c, tried, model) <==> k in c.live && (k, model) !in c.hard && k !in tried
    ensures forall k :: k in Healthy(c, tried, model, now) <==>
              k in Eligible(c, tried, model) && !Cooling(c, k, model, now)
    ensures Distinct(Eligible(c, tried, model)) && Distinct(Healthy(c, tried, model, now))
    ensures Eligible(c, tried, model) != [] ==> c.order != []
  {
    FilterIn(c.order, Free(c, tried, model));
    FilterIn(Eligible(c, tried, model), Warm(c, model, now));
    FilterDistinct(c.order, Free(c, tried, model));
    FilterDistinct(Eligible(c, tried, model), Warm(c, model, now));
  }

  lemma {:induction false} WalkFinds(order: seq<string>, allowed: set<string>, start: nat, offset: nat, i: nat)
    requires start < |order| && offset <= |order|
    requires offset <= i < |order| && order[(start + i) % |order|] in allowed
    ensures Walk(order, allowed, start, offset) < |order| && order[Walk(order, allowed, start, offset)] in allowed
    decreases |order| - offset
  {
    if order[(start + offset) % |order|] !in allowed {
      WalkFinds(order, allowed, start, offset + 1, i);
    }
  }

  lemma OnTheRing(n: nat, start: nat, at: nat) returns (i: nat)
    requires start < n && at < n
    ensures i < n && (start + i) % n == at
  {
    i := if at >= start then at - start else at + n - start;
    Wrapped(n, start + i);
  }

  lemma RotateFinds(order: seq<string>, healthy: seq<string>, rr: nat)
    requires order != [] && healthy != [] && forall k :: k in healthy ==> k in order
    ensures var (key, next) := Rotate(order, healthy, rr); key in healthy && next < |order|
  {
    var allowed := Members(healthy);
    assert healthy[0] in order;
    var at :| 0 <= at < |order| && order[at] == healthy[0];
    var i := OnTheRing(|order|, rr % |order|, at);
    WalkFinds(order, allowed, rr % |order|, 0, i);
  }

  lemma ChooseFinds(c: Core, healthy: seq<string>, flights: map<string, nat>, advance: bool)
    requires Inv(c) && healthy != [] && Distinct(healthy) && flights.Keys == c.live.Keys
               && forall k :: k in healthy ==> k in c.live
    ensures c.order != [] && Choose(c, healthy, flights, advance).0 in healthy
    ensures Inv(Choose(c, healthy, flights, advance).1)
    ensures var after := Choose(c, healthy, flights, advance).1; after == c.(rr := after.rr, swrr := after.swrr)
  {
    assert healthy[0] in c.order;
    match c.strategy
    case Weighted =>
      DrawnWeighted(c, healthy, advance);
    case FillFirst =>
    case RoundRobin =>
      RotateFinds(c.order, healthy, c.rr);
  }

  lemma DrawnWeighted(c: Core, healthy: seq<string>, advance: bool)
    requires Inv(c) && healthy != [] && Distinct(healthy) && forall k :: k in healthy ==> k in c.live
    ensures DrawWeighted(c, healthy, advance).0 in healthy
    ensures DrawWeighted(c, healthy, advance).1.Keys <= c.live.Keys
  {
    Swrr.BestIsLargest(healthy, c.swrr);
    forall k ensures k in Swrr.Draw(healthy, Weights(c, healthy), c.swrr) <==> k in c.swrr || k in healthy {
      Swrr.DrawAt(healthy, Weights(c, healthy), c.swrr, k);
    }
    Swrr.BestIsLargest(healthy, Swrr.Bump(healthy, Weights(c, healthy), c.swrr));
  }

  lemma SoonestIsBest(c: Core, eligible: seq<string>, model: string)
    requires eligible != []
    ensures Soonest(c, eligible, model) in eligible
    ensures exists i: nat :: IsFirstMin(eligible, i, ResetLess(c, model)) && eligible[i] == Soonest(c, eligible, model)
    ensures forall k :: k in eligible ==> !ResetsBefore(c, model, k, Soonest(c, eligible, model))
  {
    ResetOrder(c, model);
    SortSize(eligible, ResetLess(c, model));
    var i := SortHead(eligible, ResetLess(c, model));
    forall k | k in eligible ensures !ResetsBefore(c, model, k, Soonest(c, eligible, model)) {
      var j :| 0 <= j < |eligible| && eligible[j] == k;
      if j < i {
        assert ResetLess(c, model)(eligible[i], eligible[j]);
      } else {
        assert !ResetLess(c, model)(eligible[j], eligible[i]);
      }
    }
  }

  /** When an account is out of both its quota block and its cooldown. */
  function ReadyAt(c: Core, key: string, model: string): real {
    if BlockedUntil(c, key, model) >= FailedUntil(c, key) then BlockedUntil(c, key, model) else FailedUntil(c, key)
  }

  /** A candidate before which no other resets. */
  predicate Foremost(c: Core, eligible: seq<string>, model: string, m: string) {
    m in eligible && forall k :: k in eligible ==> !ResetsBefore(c, model, k, m)
  }

  /**
   The account tried while everything cools is meant to be the one most likely to work again. It is the one
   that becomes usable first exactly when a foremost candidate's cooldown is over before any candidate is
   ready: the order looks at the quota blocks first, and even at expired ones that were not purged yet.
   */
  lemma CanaryIsReadyFirstIff(c: Core, eligible: seq<string>, model: string)
    requires eligible != []
    ensures var canary := Soonest(c, eligible, model);
            (forall k :: k in eligible ==> ReadyAt(c, canary, model) <= ReadyAt(c, k, model)) <==>
              exists m :: Foremost(c, eligible, model, m)
                          && forall k :: k in eligible ==> FailedUntil(c, m) <= ReadyAt(c, k, model)
  {
    SoonestIsBest(c, eligible, model);
    hide Soonest, BlockedUntil, FailedUntil;
  }

  /** So it is, whenever the candidates' blocks are equal, or a foremost one's cooldown ends before its block. */
  lemma CanaryIsReadyFirst(c: Core, eligible: seq<string>, model: string)
    requires eligible != []
    requires || (forall k, l :: k in eligible && l in eligible ==>
                 BlockedUntil(c, k, model) == BlockedUntil(c, l, model))
             || (exists m :: Foremost(c, eligible, model, m) && FailedUntil(c, m) <= BlockedUntil(c, m, model))
    ensures forall k :: k in eligible ==> ReadyAt(c, Soonest(c, eligible, model), model) <= ReadyAt(c, k, model)
  {
    SoonestIsBest(c, eligible, model);
    hide Soonest, BlockedUntil, FailedUntil;
  }

  /**
   And a pool in which it is not: both accounts cool at 100, "a" until 130 and "b" until 110, but a block of
   "b" that ran out at 10 was not purged. Acquire takes "a", though "b" is ready twenty seconds earlier.
   */
  lemma CanaryIsReadyLater(flights: map<string, nat>, advance: bool)
    requires flights.Keys == {"a", "b"}
    ensures var c := StaleBlock();
            && Inv(c) && Acquire(c, None, {}, "m", 100.0, flights, advance).0 == Some("a")
            && ReadyAt(c, "a", "m") == 130.0 && ReadyAt(c, "b", "m") == 110.0
  {
    var c := StaleBlock();
    StaleBlockHolds();
    hide Acquire, Inv;
    AcquireIsBest(c, None, {}, "m", 100.0, flights, advance);
    assert Open(c, "a", {}, "m") && ResetsBefore(c, "m", "a", "b");
  }

  lemma StaleBlockHolds()
    ensures Inv(StaleBlock()) && StaleBlock().live.Keys == {"a", "b"}
  {
    assert Lex.Less("a", "b") && !Lex.Less("b", "a");
  }

  function StaleBlock(): Core {
    Core(map["a" := Ident(1, 1), "b" := Ident(2, 2)], ["a", "b"], 0, map["a" := 130.0, "b" := 110.0],
         map[("b", "m") := 10.0], {}, 2, RoundRobin, map[], map[])
  }

  /** May serve the model at all: no hard block, not tried yet. */
  predicate Open(c: Core, key: string, tried: set<string>, model: string) {
    key in c.live && (key, model) !in c.hard && key !in tried
  }

  /** An open account, healthy if any open one is, and otherwise one whose deadlines end first. */
  ghost predicate BestOf(c: Core, key: string, tried: set<string>, model: string, now: real) {
    && Open(c, key, tried, model)
    && ((exists k :: Open(c, k, tried, model) && !Cooling(c, k, model, now)) ==> !Cooling(c, key, model, now))
    && ((forall k :: Open(c, k, tried, model) ==> Cooling(c, k, model, now)) ==>
         forall k :: Open(c, k, tried, model) ==> !ResetsBefore(c, model, k, key))
  }

  /**
   Acquire is sound and as good as it can be: nothing exactly when no live, untried account without
   a hard block exists; a healthy one whenever there is one; otherwise the one whose quota block,
   then cooldown, ends first. On the pinned and on the drawn path alike.
   */
  lemma AcquireIsBest(c: Core, pin: Option<string>, tried: set<string>, model: string, now: real,
                      flights: map<string, nat>, advance: bool)
    requires Inv(c) && flights.Keys == c.live.Keys
    ensures var got := Acquire(c, pin, tried, model, now, flights, advance).0;
            && (got.None? <==> forall k :: k in c.live ==> !Open(c, k, tried, model))
            && (got.Some? ==> BestOf(c, got.value, tried, model, now))
  {
    var pinned := pin.Some? && PinUsable(c, pin.value, tried, model, now);
    EligibleMembers(c, tried, model, now);
    if !pinned && Eligible(c, tried, model) != [] {
      DrawnIsBest(c, tried, model, now, flights, advance);
    }
    hide Drawn, Eligible, Healthy, Inv, Cooling, ResetsBefore;
    if !pinned && Eligible(c, tried, model) == [] {
      DrawnNothing(c, tried, model, now, flights, advance);
    }
  }

  lemma DrawnNothing(c: Core, tried: set<string>, model: string, now: real, flights: map<string, nat>, advance: bool)
    requires Inv(c) && flights.Keys == c.live.Keys && Eligible(c, tried, model) == []
    ensures Drawn(c, tried, model, now, flights, advance) == (None, c)
    ensures forall k :: k in c.live ==> !Open(c, k, tried, model)
  {
    EligibleMembers(c, tried, model, now);
    hide Choose, Eligible, Inv;
    assert forall k :: k in c.live && Open(c, k, tried, model) ==> k in Eligible(c, tried, model);
  }

  lemma DrawnIsBest(c: Core, tried: set<string>, model: string, now: real, flights: map<string, nat>, advance: bool)
    requires Inv(c) && flights.Keys == c.live.Keys && Eligible(c, tried, model) != []
    ensures var got := Drawn(c, tried, model, now, flights, advance).0;
            got.Some? && BestOf(c, got.value, tried, model, now)
  {
    var eligible := Eligible(c, tried, model);
    var healthy := Healthy(c, tried, model, now);
    EligibleMembers(c, tried, model, now);
    if healthy != [] {
      ChooseFinds(c, healthy, flights, advance);
      hide Choose, Soonest, Eligible, Healthy, Inv, Cooling, ResetsBefore;
      HealthyIsBest(c, Choose(c, healthy, flights, advance).0, tried, model, now);
    } else {
      SoonestIsBest(c, eligible, model);
      hide Choose, Soonest, Eligible, Inv, Cooling, ResetsBefore;
      SoonestDoes(c, Soonest(c, eligible, model), tried, model, now);
    }
  }

  lemma HealthyIsBest(c: Core, key: string, tried: set<string>, model: string, now: real)
    requires Open(c, key, tried, model) && !Cooling(c, key, model, now)
    ensures BestOf(c, key, tried, model, now)
  {
    hide Cooling, ResetsBefore;
  }

  lemma SoonestDoes(c: Core, key: string, tried: set<string>, model: string, now: real)
    requires Open(c, key, tried, model) && forall k :: Open(c, k, tried, model) ==> Cooling(c, k, model, now)
    requires forall k :: Open(c, k, tried, model) ==> !ResetsBefore(c, model, k, key)
    ensures BestOf(c, key, tried, model, now)
  {
    hide Cooling, ResetsBefore;
  }

  lemma DrawnIsLive(c: Core, tried: set<string>, model: string, now: real, flights: map<string, nat>, advance: bool)
    requires Inv(c) && flights.Keys == c.live.Keys
    ensures var (key, after) := Drawn(c, tried, model, now, flights, advance);
            && (key.Some? ==> key.value in c.live)
            && (c.order == [] ==> key == None && after == c)
  {
    hide Drawn, Inv;
    if Eligible(c, tried, model) == [] {
      DrawnNothing(c, tried, model, now, flights, advance);
    } else {
      EligibleMembers(c, tried, model, now);
      DrawnIsBest(c, tried, model, now, flights, advance);
    }
  }

  lemma EmptyPool(c: Core, pin: Option<string>, tried: set<string>, model: string, now: real, flights: map<string,
                  nat>, advance: bool)
    requires Inv(c) && flights.Keys == c.live.Keys && c.order == []
    ensures Acquire(c, pin, tried, model, now, flights, advance) == (None, c)
    ensures pin.Some? ==> !PinUsable(c, pin.value, tried, model, now)
  {
  }

  lemma AcquireKeepsInv(c: Core, pin: Option<string>, tried: set<string>, model: string, now: real,
                        flights: map<string, nat>, advance: bool)
    requires Inv(c) && flights.Keys == c.live.Keys
    ensures Inv(Acquire(c, pin, tried, model, now, flights, advance).1)
    ensures var after := Acquire(c, pin, tried, model, now, flights, advance).1;
            after == c.(rr := after.rr, swrr := after.swrr)
  {
    EligibleMembers(c, tried, model, now);
    hide Inv, Choose, Soonest, Eligible, Healthy, PinUsable;
    if Healthy(c, tried, model, now) != [] {
      ChooseFinds(c, Healthy(c, tried, model, now), flights, advance);
    }
  }

  /** A retry inside one request never advances a cursor or an accumulator. */
  lemma RetryMovesNothing(c: Core, pin: Option<string>, tried: set<string>, model: string, now: real,
                          flights: map<string, nat>)
    requires Inv(c) && flights.Keys == c.live.Keys
    ensures Acquire(c, pin, tried, model, now, flights, false).1 == c
  {
    EligibleMembers(c, tried, model, now);
    var healthy := Healthy(c, tried, model, now);
    if healthy != [] {
      RetryChoosesInPlace(c, healthy, flights);
    }
    hide Choose, Soonest, Eligible, Healthy, Inv, Cooling;
  }

  lemma RetryChoosesInPlace(c: Core, healthy: seq<string>, flights: map<string, nat>)
    requires c.order != [] && healthy != [] && forall k :: k in healthy ==> k in flights
    ensures Choose(c, healthy, flights, false).1 == c
  {
    hide FirstToFill, Rotate;
  }

  /** The heaviest healthy account drains first; among equals the least busy, then the smallest key. */
  lemma {:induction false} FillFirstIsLeast(c: Core, flights: map<string, nat>, healthy: seq<string>)
    requires healthy != [] && forall k :: k in healthy ==> k in flights
    ensures forall k :: k in healthy ==> !FillsBefore(c, flights, k, FirstToFill(c, flights, healthy))
  {
    hide FillsBefore;
    var front, last := healthy[..|healthy| - 1], healthy[|healthy| - 1];
    assert healthy == front + [last];
    FillsOrder(c, flights, last, last, last);
    if front != [] {
      FillFirstIsLeast(c, flights, front);
      var best := FirstToFill(c, flights, front);
      forall k | k in front && FillsBefore(c, flights, last, best) ensures !FillsBefore(c, flights, k, last) {
        FillsOrder(c, flights, k, last, best);
      }
    }
  }

  lemma FillsOrder(c: Core, flights: map<string, nat>, x: string, y: string, z: string)
    requires x in flights && y in flights && z in flights
    ensures !FillsBefore(c, flights, x, x)
    ensures FillsBefore(c, flights, x, y) && FillsBefore(c, flights, y, z) ==> FillsBefore(c, flights, x, z)
  {
    Lex.Irreflexive(x);
    if Lex.Less(x, y) && Lex.Less(y, z) {
      Lex.Transitive(x, y, z);
    }
  }

  // ---- what the strategies promise over many draws ----

  /** The slots in the order round-robin walks them from cursor `rr`. */
  function Ring(order: seq<string>, rr: nat): seq<string>
    requires rr <= |order|
  {
    order[rr..] + order[..rr]
  }

  function In(allowed: set<string>): string -> bool {
    k => k in allowed
  }

  /** The healthy keys in that order. */
  function Queue(order: seq<string>, allowed: set<string>, rr: nat): seq<string>
    requires rr <= |order|
  {
    Filter(Ring(order, rr), In(allowed))
  }

  function FirstFrom(ring: seq<string>, allowed: set<string>, offset: nat): nat
    requires offset <= |ring|
    decreases |ring| - offset
  {
    if offset == |ring| || ring[offset] in allowed then offset else FirstFrom(ring, allowed, offset + 1)
  }

  lemma {:induction false} FirstFromFacts(ring: seq<string>, allowed: set<string>, offset: nat)
    requires offset <= |ring|
    ensures var i := FirstFrom(ring, allowed, offset);
            && offset <= i <= |ring| && (i < |ring| ==> ring[i] in allowed)
            && forall j :: offset <= j < i ==> ring[j] !in allowed
    decreases |ring| - offset
  {
    if offset < |ring| && ring[offset] !in allowed {
      FirstFromFacts(ring, allowed, offset + 1);
    }
  }

  lemma Wrapped(n: nat, x: nat)
    requires n > 0 && x < n + n
    ensures x % n == if x < n then x else x - n
  {
    if x >= n {
      assert x == 1 * n + (x - n);
    }
  }

  lemma RingAt(order: seq<string>, rr: nat, i: nat)
    requires rr < |order| && i < |order|
    ensures |Ring(order, rr)| == |order| && Ring(order, rr)[i] == order[(rr + i) % |order|]
  {
    Wrapped(|order|, rr + i);
  }

  lemma {:induction false} WalkOnRing(order: seq<string>, allowed: set<string>, rr: nat, offset: nat)
    requires rr < |order| && offset <= |order|
    ensures |Ring(order, rr)| == |order|
    ensures var i := FirstFrom(Ring(order, rr), allowed, offset);
            Walk(order, allowed, rr, offset) == if i < |order| then (rr + i) % |order| else |order|
    decreases |order| - offset
  {
    if offset < |order| {
      RingAt(order, rr, offset);
      WalkOnRing(order, allowed, rr, offset + 1);
    }
  }

  lemma RingNext(order: seq<string>, rr: nat, i: nat)
    requires rr < |order| && i < |order|
    ensures var ring := Ring(order, rr);
            var next := ((rr + i) % |order| + 1) % |order|;
            |ring| == |order| && Ring(order, next) == ring[i + 1..] + ring[..i + 1]
  {
    var n := |order|;
    Wrapped(n, rr + i);
    var at := (rr + i) % n;
    Wrapped(n, at + 1);
    var next := (at + 1) % n;
    var ring := Ring(order, rr);
    if rr + i + 1 < n {
      assert ring[i + 1..] == order[next..] + order[..rr];
      assert order[..next] == order[..rr] + ring[..i + 1];
    } else if rr + i + 1 == n {
      assert next == 0 && ring[..i + 1] == order[rr..] && ring[i + 1..] == order[..rr];
    } else {
      assert ring[i + 1..] == order[next..rr];
      assert ring[..i + 1] == order[rr..] + order[..next];
      assert order[next..] == order[next..rr] + order[rr..];
    }
  }

  /** Moving everything up to the first allowed key to the back moves that key behind the others. */
  lemma FilterCycles(ring: seq<string>, allowed: set<string>, i: nat)
    requires i < |ring| && ring[i] in allowed && forall j :: 0 <= j < i ==> ring[j] !in allowed
    ensures Filter(ring, In(allowed)) != [] && Filter(ring, In(allowed))[0] == ring[i]
    ensures Filter(ring[i + 1..] + ring[..i + 1], In(allowed)) == Filter(ring, In(allowed))[1..] + [ring[i]]
  {
    hide Filter;
    LoneAllowed(ring, allowed, i);
    LoneFirst(ring, i + 1, ring[i], In(allowed));
  }

  lemma LoneFirst(ring: seq<string>, n: nat, x: string, test: string -> bool)
    requires n <= |ring| && Filter(ring[..n], test) == [x]
    ensures Filter(ring, test) != [] && Filter(ring, test)[0] == x
    ensures Filter(ring[n..] + ring[..n], test) == Filter(ring, test)[1..] + [x]
  {
    hide Filter;
    var front, back := ring[..n], ring[n..];
    assert ring == front + back;
    FilterAppend(front, back, test);
    FilterAppend(back, front, test);
    assert ([x] + Filter(back, test))[1..] == Filter(back, test);
  }

  lemma LoneAllowed(ring: seq<string>, allowed: set<string>, i: nat)
    requires i < |ring| && ring[i] in allowed && forall j :: 0 <= j < i ==> ring[j] !in allowed
    ensures Filter(ring[..i + 1], In(allowed)) == [ring[i]]
  {
    assert ring[..i + 1][..i] == ring[..i];
    FilterNone(ring[..i], In(allowed));
  }

  /** The cursor stops at the first allowed key of the ring. */
  lemma RotateStops(order: seq<string>, healthy: seq<string>, rr: nat) returns (i: nat)
    requires order != [] && healthy != [] && rr < |order| && forall k :: k in healthy ==> k in order
    ensures i < |order| && |Ring(order, rr)| == |order|
    ensures Ring(order, rr)[i] in Members(healthy) && forall j :: 0 <= j < i ==> Ring(order, rr)[j] !in Members(healthy)
    ensures Rotate(order, healthy, rr) == (Ring(order, rr)[i], ((rr + i) % |order| + 1) % |order|)
  {
    var allowed := Members(healthy);
    assert rr % |order| == rr by { Wrapped(|order|, rr); }
    WalkOnRing(order, allowed, rr, 0);
    FirstFromFacts(Ring(order, rr), allowed, 0);
    i := FirstFrom(Ring(order, rr), allowed, 0);
    assert healthy[0] in order;
    var at :| 0 <= at < |order| && order[at] == healthy[0];
    var j := OnTheRing(|order|, rr, at);
    RingAt(order, rr, j);
    RingAt(order, rr, i);
  }

  /** One advancing draw takes the queue's head to its back. */
  lemma RotateCycles(order: seq<string>, healthy: seq<string>, rr: nat)
    requires order != [] && healthy != [] && rr < |order| && Distinct(order)
    requires forall k :: k in healthy ==> k in order
    ensures var allowed := Members(healthy);
            var queue := Queue(order, allowed, rr);
            var (key, next) := Rotate(order, healthy, rr);
            && next < |order| && queue != [] && key == queue[0]
            && Queue(order, allowed, next) == queue[1..] + [key]
  {
    var i := RotateStops(order, healthy, rr);
    RingNext(order, rr, i);
    FilterCycles(Ring(order, rr), Members(healthy), i);
    hide Rotate, Members, Ring, Filter;
  }

  lemma RingMembers(order: seq<string>, rr: nat)
    requires rr <= |order|
    ensures forall k :: k in Ring(order, rr) <==> k in order
  {
    assert order == order[..rr] + order[rr..];
  }

  /** The keys of `n` consecutive advancing draws with a fixed healthy set, and the cursor after them. */
  function Draws(order: seq<string>, healthy: seq<string>, rr: nat, n: nat): (seq<string>, nat)
    requires order != [] && healthy != []
  {
    if n == 0 then ([], rr)
    else
      var (keys, at) := Draws(order, healthy, rr, n - 1);
      var (key, next) := Rotate(order, healthy, at);
      (keys + [key], next)
  }

  lemma {:induction false} DrawsFollowQueue(order: seq<string>, healthy: seq<string>, rr: nat, n: nat)
    requires order != [] && healthy != [] && rr < |order| && Distinct(order)
    requires forall k :: k in healthy ==> k in order
    requires n <= |Queue(order, Members(healthy), rr)|
    ensures var allowed := Members(healthy);
            var queue := Queue(order, allowed, rr);
            var (keys, at) := Draws(order, healthy, rr, n);
            && keys == queue[..n] && at < |order|
            && Queue(order, allowed, at) == queue[n..] + queue[..n]
  {
    var allowed := Members(healthy);
    var queue := Queue(order, allowed, rr);
    if n > 0 {
      DrawsFollowQueue(order, healthy, rr, n - 1);
      var (keys, at) := Draws(order, healthy, rr, n - 1);
      hide Queue, Rotate, Members;
      RotateCycles(order, healthy, at);
      TakeNext(queue, n);
    } else {
      assert queue[0..] + queue[..0] == queue;
    }
  }

  lemma TakeNext(queue: seq<string>, n: nat)
    requires 0 < n <= |queue|
    ensures var now := queue[n - 1..] + queue[..n - 1];
            && now[0] == queue[n - 1] && queue[..n] == queue[..n - 1] + [now[0]]
            && now[1..] + [now[0]] == queue[n..] + queue[..n]
  {
  }

  lemma QueueMembers(order: seq<string>, healthy: seq<string>, rr: nat)
    requires rr <= |order| && Distinct(order) && Distinct(healthy) && forall k :: k in healthy ==> k in order
    ensures var queue := Queue(order, Members(healthy), rr);
            Distinct(queue) && (forall k :: k in queue <==> k in healthy) && |queue| == |healthy|
  {
    var allowed := Members(healthy);
    var ring := Ring(order, rr);
    RingMembers(order, rr);
    RingDistinct(order, rr);
    FilterIn(ring, In(allowed));
    FilterDistinct(ring, In(allowed));
    SameMembers(Queue(order, allowed, rr), healthy);
  }

  lemma RingDistinct(order: seq<string>, rr: nat)
    requires rr <= |order| && Distinct(order)
    ensures Distinct(Ring(order, rr))
  {
  }

  /** With k of n slots healthy, any k consecutive advancing draws choose each of them exactly once. */
  lemma RoundRobinIsFair(order: seq<string>, healthy: seq<string>, rr: nat)
    requires order != [] && healthy != [] && rr < |order| && Distinct(order) && Distinct(healthy)
    requires forall k :: k in healthy ==> k in order
    ensures var keys := Draws(order, healthy, rr, |healthy|).0;
            multiset(keys) == multiset(healthy) && Distinct(keys)
  {
    QueueMembers(order, healthy, rr);
    DrawsFollowQueue(order, healthy, rr, |healthy|);
    var queue := Queue(order, Members(healthy), rr);
    assert queue[..|healthy|] == queue;
    SameMembers(queue, healthy);
  }

  /** Weighted draws move credit between accounts but never create or destroy it. */
  lemma WeightedDrawConserves(c: Core, healthy: seq<string>, advance: bool)
    requires Inv(c) && healthy != [] && Distinct(healthy) && forall k :: k in healthy ==> k in c.live
    ensures Swrr.Sum(c.order, DrawWeighted(c, healthy, advance).1) == Swrr.Sum(c.order, c.swrr)
  {
    Swrr.DrawConserves(c.order, healthy, Weights(c, healthy), c.swrr);
  }

  /** The accumulators after a sequence of draws over changing healthy sets, some of them retries. */
  function SwrrAfter(c: Core, draws: seq<(seq<string>, bool)>): map<string, int>
    requires forall d :: d in draws ==> d.0 != []
  {
    if draws == [] then c.swrr
    else
      var last := draws[|draws| - 1];
      DrawWeighted(c.(swrr := SwrrAfter(c, draws[..|draws| - 1])), last.0, last.1).1
  }

  lemma {:induction false} CreditIsConserved(c: Core, draws: seq<(seq<string>, bool)>)
    requires Inv(c) && forall d :: d in draws ==> d.0 != [] && Distinct(d.0) && forall k :: k in d.0 ==> k in c.live
    ensures SwrrAfter(c, draws).Keys <= c.live.Keys
    ensures Swrr.Sum(c.order, SwrrAfter(c, draws)) == Swrr.Sum(c.order, c.swrr)
  {
    if draws != [] {
      var front, last := draws[..|draws| - 1], draws[|draws| - 1];
      assert last in draws && forall d :: d in front ==> d in draws;
      CreditIsConserved(c, front);
      var before := c.(swrr := SwrrAfter(c, front));
      DrawnWeighted(before, last.0, last.1);
      WeightedDrawConserves(before, last.0, last.1);
    }
  }

  /** The accumulators after `n` advancing draws among fixed candidates, and how often `k` was drawn. */
  function SwrrRun(c: Core, healthy: seq<string>, n: nat): map<string, int>
    requires healthy != []
  {
    if n == 0 then c.swrr else DrawWeighted(c.(swrr := SwrrRun(c, healthy, n - 1)), healthy, true).1
  }

  function TimesDrawn(c: Core, healthy: seq<string>, n: nat, k: string): nat
    requires healthy != []
  {
    if n == 0 then 0
    else TimesDrawn(c, healthy, n - 1, k) + if DrawWeighted(c.(swrr := SwrrRun(c, healthy, n - 1)), healthy, true).0
      == k then 1 else 0
  }

  lemma {:induction false} RunIsSwrr(c: Core, healthy: seq<string>, n: nat, k: string)
    requires |healthy| > 1
    ensures SwrrRun(c, healthy, n) == Swrr.After(healthy, Weights(c, healthy), c.swrr, n)
    ensures TimesDrawn(c, healthy, n, k) == Swrr.Wins(healthy, Weights(c, healthy), c.swrr, n, k)
  {
    hide DrawWeighted, Weights, Swrr.Winner, Swrr.Draw;
    WeightsKeys(c, healthy);
    if n > 0 {
      RunIsSwrr(c, healthy, n - 1, k);
      DrawIsSwrr(c, healthy, SwrrRun(c, healthy, n - 1));
    }
  }

  lemma DrawIsSwrr(c: Core, healthy: seq<string>, acc: map<string, int>)
    requires |healthy| > 1
    ensures forall k :: k in healthy ==> k in Weights(c, healthy)
    ensures DrawWeighted(c.(swrr := acc), healthy, true).0 == Swrr.Winner(healthy, Weights(c, healthy), acc)
    ensures DrawWeighted(c.(swrr := acc), healthy, true).1 == Swrr.Draw(healthy, Weights(c, healthy), acc)
  {
    assert Weights(c.(swrr := acc), healthy) == Weights(c, healthy);
    hide Weights, Swrr.Winner, Swrr.Draw;
  }

  lemma {:induction false} LoneRun(c: Core, k: string, n: nat)
    ensures TimesDrawn(c, [k], n, k) == n
  {
    if n > 0 {
      LoneRun(c, k, n - 1);
    }
  }

  /**
   The weighted strategy is exactly fair among accounts, too: with a fixed healthy set and accumulators
   at zero, any window as long as the total weight draws each account exactly as often as its weight.
   */
  lemma WeightedShareIsExact(c: Core, healthy: seq<string>, start: nat, k: string)
    requires healthy != [] && Distinct(healthy) && k in healthy && Swrr.Fresh(healthy, c.swrr)
    ensures var total := Swrr.Total(healthy, Weights(c, healthy));
            total > 0 && TimesDrawn(c, healthy, start + total, k) - TimesDrawn(c, healthy, start, k) == WeightOf(c, k)
  {
    hide *;
    WeightsTier(c, healthy);
    if |healthy| == 1 {
      LoneShare(c, healthy, start, k);
    } else {
      ManyShare(c, healthy, start, k, Weights(c, healthy));
    }
  }

  lemma ManyShare(c: Core, healthy: seq<string>, start: nat, k: string, w: Swrr.Weights)
    requires |healthy| > 1 && k in healthy && Swrr.Fresh(healthy, c.swrr) && Swrr.Tier(healthy, w)
               && w == Weights(c, healthy)
    ensures w[k] == WeightOf(c, k)
    ensures Swrr.Total(healthy, w) > 0
    ensures TimesDrawn(c, healthy, start + Swrr.Total(healthy, w), k) - TimesDrawn(c, healthy, start, k) == w[k]
  {
    SameWeight(c, c, healthy, k);
    Swrr.TotalPositive(healthy, w);
    var end: nat := start + Swrr.Total(healthy, w);
    hide *;
    assert Swrr.Wins(healthy, w, c.swrr, end, k) - Swrr.Wins(healthy, w, c.swrr, start, k) == w[k] by {
      Swrr.EveryWindowIsExact(healthy, w, c.swrr, start, k);
    }
    assert TimesDrawn(c, healthy, end, k) == Swrr.Wins(healthy, w, c.swrr, end, k) by { RunIsSwrr(c, healthy, end, k); }
    assert TimesDrawn(c, healthy, start, k) == Swrr.Wins(healthy, w, c.swrr, start, k) by {
      RunIsSwrr(c, healthy, start, k);
    }
  }

  lemma WeightsTier(c: Core, healthy: seq<string>)
    requires healthy != [] && Distinct(healthy)
    ensures Swrr.Tier(healthy, Weights(c, healthy))
    ensures forall k :: k in healthy ==> Weights(c, healthy)[k] == WeightOf(c, k)
  {
  }

  lemma LoneShare(c: Core, healthy: seq<string>, start: nat, k: string)
    requires |healthy| == 1 && k in healthy
    ensures var total := Swrr.Total(healthy, Weights(c, healthy));
            total > 0 && TimesDrawn(c, healthy, start + total, k) - TimesDrawn(c, healthy, start, k) == WeightOf(c, k)
  {
    var w := Weights(c, healthy);
    assert healthy == [k] && healthy[..0] == [];
    assert Swrr.Total(healthy, w) == Swrr.Total(healthy[..0], w) + w[k];
    hide TimesDrawn;
    LoneRun(c, k, start);
    LoneRun(c, k, start + w[k]);
  }

  /** The single-candidate shortcut is the draw it skips. */
  lemma LoneDrawMovesNothing(c: Core, key: string)
    ensures Swrr.Winner([key], Weights(c, [key]), c.swrr) == key
    ensures forall k :: Swrr.Get(Swrr.Draw([key], Weights(c, [key]), c.swrr), k) == Swrr.Get(c.swrr, k)
  {
    var w := Weights(c, [key]);
    assert [key][..0] == [] && Swrr.Total([], w) == 0 && Swrr.Total([key], w) == w[key];
    forall k ensures Swrr.Get(Swrr.Draw([key], w, c.swrr), k) == Swrr.Get(c.swrr, k) {
      Swrr.DrawAt([key], w, c.swrr, k);
    }
  }

  // ---- outcomes ----

  function Clamp(seconds: real): real {
    if seconds < COOLDOWN then COOLDOWN else if seconds > BLOCK_MAX then BLOCK_MAX else seconds
  }

  /** A quota block; expired entries of others are dropped on the way. */
  function MarkBlocked(c: Core, key: string, model: string, delay: real, now: real): Core {
    var marked := c.blocked[(key, model) := now + Clamp(delay)];
    c.(blocked := Purged(marked, (key, model), now))
  }

  function Purged(blocked: map<Block, real>, just: Block, now: real): map<Block, real> {
    map b | b in blocked && (b == just || blocked[b] > now) :: blocked[b]
  }

  /** A cooldown, but only for the very credential that failed. */
  function MarkFailed(c: Core, key: string, generation: nat, now: real): Core {
    if key in c.live && c.live[key].generation == generation then c.(failed := c.failed[key := now + COOLDOWN]) else c
  }

  /** A reload keeps the slot of an unchanged provider instance. */
  predicate Stays(c: Core, next: map<string, int>, key: string) {
    key in c.live && key in next && c.live[key].provider == next[key]
  }

  /** `live` serves `keys`: unchanged instances keep their slot, the others got a new generation each. */
  ghost predicate Numbered(c: Core, next: map<string, int>, live: map<string, Ident>, keys: set<string>,
                           generation: nat)
    requires keys <= next.Keys
  {
    && live.Keys == keys && c.generation <= generation
    && (forall k :: k in keys ==> live[k].provider == next[k])
    && (forall k :: k in keys && Stays(c, next, k) ==> live[k] == c.live[k])
    && (forall k :: k in keys && !Stays(c, next, k) ==> c.generation < live[k].generation <= generation)
    && (forall k, l :: k in keys && l in keys && k != l && !Stays(c, next, k) && !Stays(c, next, l) ==>
         live[k].generation != live[l].generation)
  }

  lemma NumberedGrows(c: Core, next: map<string, int>, live: map<string, Ident>, keys: set<string>, generation: nat,
                      key: string)
    requires keys <= next.Keys && key in next && key !in keys && Numbered(c, next, live, keys, generation)
    ensures if Stays(c, next, key) then Numbered(c, next, live[key := c.live[key]], keys + {key}, generation)
            else Numbered(c, next, live[key := Ident(next[key], generation + 1)], keys + {key}, generation + 1)
  {
  }

  /** Updating a well-formed pool issues no generation twice. */
  lemma NumberedIssues(c: Core, next: map<string, int>, live: map<string, Ident>, generation: nat)
    requires Issued(c.live, c.generation) && Numbered(c, next, live, next.Keys, generation)
    ensures Issued(live, generation)
  {
    forall k, l | k in live && l in live && k != l ensures live[k].generation != live[l].generation {
      if Stays(c, next, k) && Stays(c, next, l) {
        assert c.live[k].generation != c.live[l].generation;
      }
    }
  }

  lemma MarksKeepInv(c: Core, key: string, model: string, generation: nat, delay: real, now: real)
    requires Inv(c)
    ensures Inv(MarkBlocked(c, key, model, delay, now)) && Inv(MarkFailed(c, key, generation, now))
  {
  }

  /**
   A live credential's failure cools its key for thirty seconds, for every model; nothing else starts or
   stops cooling.
   */
  lemma FailureCools(c: Core, key: string, generation: nat, now: real, k: string, model: string, t: real)
    ensures var live := key in c.live && c.live[key].generation == generation;
            Cooling(MarkFailed(c, key, generation, now), k, model, t) <==>
              if live && k == key then t < now + 30.0 || BlockedUntil(c, key, model) > t else Cooling(c, k, model, t)
  {
  }

  /**
   A quota block is not that careful: it names only the key, so the report of a superseded credential
   blocks the replacement, and blocks may name keys that are not loaded at all.
   */
  lemma QuotaBlockHitsTheKey(c: Core, key: string, model: string, delay: real, now: real)
    ensures var after := MarkBlocked(c, key, model, delay, now);
            && Cooling(after, key, model, now)
            && now + COOLDOWN <= BlockedUntil(after, key, model) <= now + BLOCK_MAX
            && (COOLDOWN <= delay <= BLOCK_MAX ==> BlockedUntil(after, key, model) == now + delay)
            && (forall k, m :: (k, m) != (key, model) && now >= 0.0 ==>
                 (BlockedUntil(after, k, m) > now <==> BlockedUntil(c, k, m) > now)
                 && (BlockedUntil(c, k, m) > now ==> BlockedUntil(after, k, m) == BlockedUntil(c, k, m)))
  {
  }
}
