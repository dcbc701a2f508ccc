/** Failover across providers: the policy order, the conversation's provider first, and route cooldowns. */
module Routers {
  import opened Chunks
  import opened Sorting
  import opened Seqs
  import opened Pools
  import opened Affinities
  import Keys
  import opened Leases
  import PoolCore
  import Routes

  datatype Route = Route(provider: string, pool: Pool, upstream: string)

  type RouteKey = (string, string)

  function Names(routes: seq<Route>): seq<string> {
    seq(|routes|, i requires 0 <= i < |routes| => routes[i].provider)
  }

  // ---- the order in which routes are tried ----

  /** The slot key up to its first colon. */
  function ProviderOf(slotKey: string): string {
    if slotKey == "" || slotKey[0] == ':' then "" else [slotKey[0]] + ProviderOf(slotKey[1..])
  }

  /** The route of a provider; the last one if several carry its name. */
  function RouteOf(routes: seq<Route>, provider: string): Option<Route> {
    if routes == [] then None
    else if routes[|routes| - 1].provider == provider then Some(routes[|routes| - 1])
    else RouteOf(routes[..|routes| - 1], provider)
  }

  function RoutesOf(routes: seq<Route>, names: seq<string>): seq<Route> {
    if names == [] then []
    else
      var route := RouteOf(routes, names[|names| - 1]);
      RoutesOf(routes, names[..|names| - 1]) + if route.Some? then [route.value] else []
  }

  function IndexOf(routes: seq<Route>, provider: string): nat {
    if routes == [] || routes[0].provider == provider then 0 else 1 + IndexOf(routes[1..], provider)
  }

  /** The route of the pinned account's provider moves to the front. */
  function PinnedFirst(ordered: seq<Route>, pinned: Option<string>): seq<Route> {
    if pinned.Some? && IndexOf(ordered, ProviderOf(pinned.value)) < |ordered|
    then ToFront(ordered, IndexOf(ordered, ProviderOf(pinned.value))) else ordered
  }

  lemma {:induction false} RouteOfFacts(routes: seq<Route>, provider: string)
    ensures var found := RouteOf(routes, provider);
            && (found.Some? ==> found.value in routes && found.value.provider == provider)
            && (found.None? ==> forall r :: r in routes ==> r.provider != provider)
  {
    if routes != [] {
      RouteOfFacts(routes[..|routes| - 1], provider);
      assert routes == routes[..|routes| - 1] + [routes[|routes| - 1]];
    }
  }

  lemma {:induction false} RoutesOfFacts(routes: seq<Route>, names: seq<string>)
    requires Distinct(Names(routes)) && Distinct(names)
    ensures Distinct(RoutesOf(routes, names))
    ensures forall r :: r in RoutesOf(routes, names) <==> r in routes && r.provider in names
  {
    if names != [] {
      var front, last := names[..|names| - 1], names[|names| - 1];
      RoutesOfFacts(routes, front);
      RouteOfFacts(routes, last);
      assert names == front + [last];
      forall r | r in routes && r.provider == last ensures RouteOf(routes, last) == Some(r) {
        OneRoute(routes, r, RouteOf(routes, last).value);
      }
    }
  }

  lemma OneRoute(routes: seq<Route>, a: Route, b: Route)
    requires Distinct(Names(routes)) && a in routes && b in routes && a.provider == b.provider
    ensures a == b
  {
    var i :| 0 <= i < |routes| && routes[i] == a;
    var j :| 0 <= j < |routes| && routes[j] == b;
    assert Names(routes)[i] == Names(routes)[j];
  }

  lemma NamesOf(routes: seq<Route>)
    requires Distinct(Names(routes))
    ensures Distinct(routes)
    ensures forall r :: r in routes ==> r.provider in Names(routes)
    ensures forall p :: p in Names(routes) ==> exists r :: r in routes && r.provider == p
  {
    forall i, j | 0 <= i < j < |routes| ensures routes[i] != routes[j] {
      assert Names(routes)[i] != Names(routes)[j];
    }
    forall r | r in routes ensures r.provider in Names(routes) {
      var i :| 0 <= i < |routes| && routes[i] == r;
      assert Names(routes)[i] == r.provider;
    }
    forall p | p in Names(routes) ensures exists r :: r in routes && r.provider == p {
      var i :| 0 <= i < |routes| && Names(routes)[i] == p;
      assert routes[i] in routes;
    }
  }

  lemma {:induction false} IndexOfFacts(routes: seq<Route>, provider: string)
    ensures var i := IndexOf(routes, provider);
            && i <= |routes| && (i < |routes| ==> routes[i].provider == provider)
            && (i == |routes| ==> forall r :: r in routes ==> r.provider != provider)
  {
    if routes != [] && routes[0].provider != provider {
      IndexOfFacts(routes[1..], provider);
      assert routes == [routes[0]] + routes[1..];
    }
  }

  /**
   Whatever the draw and the pin: every route of the model is tried at most once and none is left out,
   and a conversation's provider leads whenever the model has a route to it.
   */
  lemma OrderedPermutes(routes: seq<Route>, policies: Routes.Policies, counters: Routes.Counters,
                        pinned: Option<string>)
    requires Distinct(Names(routes))
    ensures var ordered := PinnedFirst(RoutesOf(routes, Routes.Order(policies, counters, Names(routes)).1), pinned);
            && multiset(ordered) == multiset(routes) && |ordered| == |routes|
            && (pinned.Some? && ProviderOf(pinned.value) in Names(routes) ==>
                ordered != [] && ordered[0].provider == ProviderOf(pinned.value))
  {
    var names := Routes.Order(policies, counters, Names(routes)).1;
    Routes.OrderPermutes(policies, counters, Names(routes));
    hide *;
    RoutesPermute(routes, names);
    PinnedPermutes(routes, RoutesOf(routes, names), pinned);
  }

  lemma RoutesPermute(routes: seq<Route>, names: seq<string>)
    requires Distinct(Names(routes)) && multiset(names) == multiset(Names(routes))
    ensures multiset(RoutesOf(routes, names)) == multiset(routes) && |RoutesOf(routes, names)| == |routes|
  {
    StaysDistinct(Names(routes), names);
    assert forall p :: p in names <==> p in multiset(names);
    assert forall p :: p in Names(routes) <==> p in multiset(Names(routes));
    hide Names, Distinct;
    RoutesOfFacts(routes, names);
    NamesOf(routes);
    SameMembers(RoutesOf(routes, names), routes);
  }

  lemma PinnedPermutes(routes: seq<Route>, ordered: seq<Route>, pinned: Option<string>)
    requires Distinct(Names(routes)) && multiset(ordered) == multiset(routes) && |ordered| == |routes|
    ensures var moved := PinnedFirst(ordered, pinned);
            && multiset(moved) == multiset(routes) && |moved| == |routes|
            && (pinned.Some? && ProviderOf(pinned.value) in Names(routes) ==>
                moved != [] && moved[0].provider == ProviderOf(pinned.value))
  {
    hide Names, Distinct, ProviderOf, IndexOf;
    if pinned.Some? {
      var provider := ProviderOf(pinned.value);
      IndexOfFacts(ordered, provider);
      if provider in Names(routes) {
        NamedRoute(routes, ordered, provider);
      }
      if IndexOf(ordered, provider) < |ordered| {
        ToFrontPermutes(ordered, IndexOf(ordered, provider));
      }
    }
  }

  lemma NamedRoute(routes: seq<Route>, ordered: seq<Route>, provider: string)
    requires Distinct(Names(routes)) && multiset(ordered) == multiset(routes) && provider in Names(routes)
    ensures exists r :: r in ordered && r.provider == provider
  {
    NamesOf(routes);
    var r :| r in routes && r.provider == provider;
    assert r in multiset(routes);
  }

  /** The order in which a request tries its routes. */
  function TryingOrder(routes: seq<Route>, policies: Routes.Policies, counters: Routes.Counters,
                       pinned: Option<string>): seq<Route> {
    PinnedFirst(RoutesOf(routes, Routes.Order(policies, counters, Names(routes)).1), pinned)
  }

  /** The pinned account's provider has a route. */
  predicate Leads(routes: seq<Route>, pinned: Option<string>) {
    pinned.Some? && ProviderOf(pinned.value) in Names(routes)
  }

  /** Usable routes come before unusable ones, and their priorities never decrease. */
  ghost predicate Ranked(policies: Routes.Policies, ordered: seq<Route>) {
    forall i, j :: 0 <= i < j < |ordered| && Routes.Usable(policies, ordered[j].provider) ==>
      && Routes.Usable(policies, ordered[i].provider)
      && Routes.PolicyOf(policies, ordered[i].provider).priority <= Routes.PolicyOf(policies,
                                                                                    ordered[j].provider).priority
  }

  /** A pinned conversation's provider is tried first; all other routes are tried as they rank. */
  ghost predicate WellOrdered(routes: seq<Route>, policies: Routes.Policies, pinned: Option<string>,
                              ordered: seq<Route>) {
    && multiset(ordered) == multiset(routes)
    && if Leads(routes, pinned)
       then ordered != [] && ordered[0].provider == ProviderOf(pinned.value) && Ranked(policies, ordered[1..])
       else Ranked(policies, ordered)
  }

  lemma OrderIsWell(routes: seq<Route>, policies: Routes.Policies, counters: Routes.Counters, pinned: Option<string>)
    requires Distinct(Names(routes))
    ensures WellOrdered(routes, policies, pinned, TryingOrder(routes, policies, counters, pinned))
  {
    var names := Routes.Order(policies, counters, Names(routes)).1;
    Routes.OrderPermutes(policies, counters, Names(routes));
    assert forall p :: p in names ==> p in multiset(names);
    assert forall p :: p in multiset(Names(routes)) ==> p in Names(routes);
    hide *;
    RoutesRank(routes, policies, counters);
    RoutesPermute(routes, names);
    PinnedIsWell(routes, policies, RoutesOf(routes, names), pinned);
    OrderIs(routes, policies, counters, pinned);
  }

  lemma OrderIs(routes: seq<Route>, policies: Routes.Policies, counters: Routes.Counters, pinned: Option<string>)
    ensures TryingOrder(routes, policies, counters, pinned)
         == PinnedFirst(RoutesOf(routes, Routes.Order(policies, counters, Names(routes)).1), pinned)
  {
  }

  lemma PinnedIsWell(routes: seq<Route>, policies: Routes.Policies, ordered: seq<Route>, pinned: Option<string>)
    requires Distinct(Names(routes)) && Ranked(policies, ordered)
    requires multiset(ordered) == multiset(routes) && |ordered| == |routes|
    ensures WellOrdered(routes, policies, pinned, PinnedFirst(ordered, pinned))
  {
    PinnedPermutes(routes, ordered, pinned);
    hide Ranked, ProviderOf, Names, Distinct, IndexOf;
    if pinned.Some? {
      var provider := ProviderOf(pinned.value);
      IndexOfFacts(ordered, provider);
      if IndexOf(ordered, provider) < |ordered| {
        ToFrontRanks(policies, ordered, IndexOf(ordered, provider));
      }
      if provider in Names(routes) {
        NamedRoute(routes, ordered, provider);
      } else {
        NoSuchRoute(routes, ordered, provider);
      }
    }
  }

  /** Nothing is lost between the names and their routes. */
  lemma {:induction false} NamesKept(routes: seq<Route>, names: seq<string>)
    requires forall p :: p in names ==> p in Names(routes)
    ensures Names(RoutesOf(routes, names)) == names
  {
    if names != [] {
      var front, last := names[..|names| - 1], names[|names| - 1];
      assert names == front + [last];
      NamesKept(routes, front);
      RouteOfFacts(routes, last);
      NamedBy(routes, last);
    }
  }

  lemma NamedBy(routes: seq<Route>, provider: string)
    requires provider in Names(routes)
    ensures exists r :: r in routes && r.provider == provider
  {
    var i :| 0 <= i < |routes| && Names(routes)[i] == provider;
    assert routes[i] in routes;
  }

  lemma NoSuchRoute(routes: seq<Route>, ordered: seq<Route>, provider: string)
    requires multiset(ordered) == multiset(routes) && provider !in Names(routes)
    ensures forall r :: r in ordered ==> r.provider != provider
  {
    forall r | r in ordered ensures r.provider != provider {
      assert r in multiset(ordered);
      var i :| 0 <= i < |routes| && routes[i] == r;
      assert Names(routes)[i] == r.provider;
    }
  }

  lemma RoutesRank(routes: seq<Route>, policies: Routes.Policies, counters: Routes.Counters)
    requires Distinct(Names(routes))
    requires forall p :: p in Routes.Order(policies, counters, Names(routes)).1 ==> p in Names(routes)
    ensures Ranked(policies, RoutesOf(routes, Routes.Order(policies, counters, Names(routes)).1))
  {
    var names := Routes.Order(policies, counters, Names(routes)).1;
    var ordered := RoutesOf(routes, names);
    NamesKept(routes, names);
    hide Routes.Order, RoutesOf, Routes.Usable;
    forall i, j | 0 <= i < j < |ordered| && Routes.Usable(policies, ordered[j].provider)
      ensures Routes.Usable(policies, ordered[i].provider)
      ensures Routes.PolicyOf(policies, ordered[i].provider).priority
           <= Routes.PolicyOf(policies, ordered[j].provider).priority
    {
      assert Names(ordered)[i] == ordered[i].provider && Names(ordered)[j] == ordered[j].provider;
      Routes.OrderRanks(policies, counters, Names(routes), i, j);
    }
  }

  lemma ToFrontRanks(policies: Routes.Policies, ordered: seq<Route>, i: nat)
    requires i < |ordered| && Ranked(policies, ordered)
    ensures Ranked(policies, ToFront(ordered, i)[1..])
  {
    var rest := ToFront(ordered, i)[1..];
    assert forall k :: 0 <= k < |rest| ==> rest[k] == ordered[if k < i then k else k + 1];
  }

  lemma SameRoutes(routes: seq<Route>, policies: Routes.Policies, pinned: Option<string>, ordered: seq<Route>)
    requires WellOrdered(routes, policies, pinned, ordered)
    ensures multiset(ordered) == multiset(routes) && forall i :: 0 <= i < |ordered| ==> ordered[i] in routes
  {
    forall i | 0 <= i < |ordered| ensures ordered[i] in routes {
      assert ordered[i] in multiset(ordered);
    }
  }

  // ---- who is tried first over many requests ----

  /** How one request got its order: the scheduler's counters before and after, and the pin it found. */
  datatype Draw = Draw(before: Routes.Counters, pinned: Option<string>, ordered: seq<Route>, after: Routes.Counters)

  ghost predicate Drew(routes: seq<Route>, policies: Routes.Policies, d: Draw) {
    && d.ordered == TryingOrder(routes, policies, d.before, d.pinned)
    && d.after == Routes.Order(policies, d.before, Names(routes)).0
  }

  /** The draws of all requests for one model, one after another. */
  ghost predicate History(routes: seq<Route>, policies: Routes.Policies, draws: seq<Draw>) {
    && (forall i :: 0 <= i < |draws| ==> Drew(routes, policies, draws[i]))
    && forall i :: 0 < i < |draws| ==> draws[i].before == draws[i - 1].after
  }

  /** How many of the `n` requests from `start` on tried this provider first. */
  function FirstTries(draws: seq<Draw>, start: nat, n: nat, provider: string): nat
    requires start + n <= |draws|
  {
    if n == 0 then 0
    else
      var last := draws[start + n - 1].ordered;
      FirstTries(draws, start, n - 1, provider) + if last != [] && last[0].provider == provider then 1 else 0
  }

  lemma {:induction false} HistoryCounts(routes: seq<Route>, policies: Routes.Policies, draws: seq<Draw>, n: nat)
    requires History(routes, policies, draws) && n < |draws|
    ensures draws[n].before == Routes.CountersAfter(policies, draws[0].before, Names(routes), n)
  {
    hide Routes.Order, TryingOrder;
    if n > 0 {
      HistoryCounts(routes, policies, draws, n - 1);
      assert Drew(routes, policies, draws[n - 1]);
    }
  }

  ghost predicate BestTier(policies: Routes.Policies, names: seq<string>, priority: int) {
    forall p :: p in names && Routes.Usable(policies, p) ==> Routes.PolicyOf(policies, p).priority >= priority
  }

  /** No request of the window was led by its pin. */
  ghost predicate NoneLed(routes: seq<Route>, draws: seq<Draw>, start: nat, n: nat) {
    start + n <= |draws| && forall i :: start <= i < start + n ==> !Leads(routes, draws[i].pinned)
  }

  /** Without a pin that leads, the first route tried is the head of the best tier's ranking. */
  lemma FirstTried(routes: seq<Route>, policies: Routes.Policies, d: Draw, priority: int)
    requires Distinct(Names(routes)) && Drew(routes, policies, d) && !Leads(routes, d.pinned)
    requires Routes.TierOf(policies, Names(routes), priority) != []
    requires BestTier(policies, Names(routes), priority)
    ensures var ranking := Routes.Ranking(policies, d.before, Names(routes), priority);
            d.ordered != [] && ranking != [] && d.ordered[0].provider == ranking[0]
  {
    var names := Routes.Order(policies, d.before, Names(routes)).1;
    Routes.FirstTierLeads(policies, d.before, Names(routes), priority);
    Routes.OrderPermutes(policies, d.before, Names(routes));
    assert forall p :: p in names <==> p in multiset(names);
    assert forall p :: p in Names(routes) <==> p in multiset(Names(routes));
    hide Routes.Order, Routes.TierOf, Routes.Ranking, RoutesOf, Routes.Usable;
    NamesKept(routes, names);
    RoutesPermute(routes, names);
    if d.pinned.Some? {
      NoSuchRoute(routes, RoutesOf(routes, names), ProviderOf(d.pinned.value));
      IndexOfFacts(RoutesOf(routes, names), ProviderOf(d.pinned.value));
    }
    assert Names(RoutesOf(routes, names))[0] == names[0];
  }

  /** Counting the requests that tried `k` first is counting how often the scheduler ranked it first. */
  lemma {:induction false} TriesAreLeads(routes: seq<Route>, policies: Routes.Policies, draws: seq<Draw>, priority: int,
                                         start: nat, n: nat, k: string)
    requires Distinct(Names(routes)) && History(routes, policies, draws) && draws != []
    requires NoneLed(routes, draws, start, n)
    requires Routes.TierOf(policies, Names(routes), priority) != []
    requires BestTier(policies, Names(routes), priority)
    ensures FirstTries(draws, start, n, k)
         == Routes.Leads(policies, draws[0].before, Names(routes), priority, start + n, k)
          - Routes.Leads(policies, draws[0].before, Names(routes), priority, start, k)
  {
    hide Routes.Ranking, Routes.TierOf, Routes.Usable, Routes.CountersAfter, Drew, Leads, Names;
    if n > 0 {
      TriesAreLeads(routes, policies, draws, priority, start, n - 1, k);
      HistoryCounts(routes, policies, draws, start + n - 1);
      FirstTried(routes, policies, draws[start + n - 1], priority);
    }
  }

  /** The total weight of a tier: as many requests make a round. */
  function RoundOf(routes: seq<Route>, policies: Routes.Policies, priority: int): int {
    Routes.Counted(policies, Routes.TierOf(policies, Names(routes), priority))
  }

  /**
   Exact shares of the requests themselves: from a fresh scheduler, in any window as long as the best tier's
   total weight in which no pin leads, each of its providers is tried first exactly weight times, whatever
   pinned requests went before.
   */
  lemma RequestsGetFairShare(routes: seq<Route>, policies: Routes.Policies, draws: seq<Draw>, priority: int, start: nat,
                             k: string)
    requires Distinct(Names(routes)) && Routes.Covered(policies, Names(routes)) && draws != []
    requires History(routes, policies, draws)
    requires Routes.FreshTier(policies, draws[0].before, Names(routes), priority)
    requires k in Names(routes) && Routes.InTier(policies, k, priority)
    requires BestTier(policies, Names(routes), priority)
    requires var total := RoundOf(routes, policies, priority); total > 0 ==> NoneLed(routes, draws, start, total)
    ensures var total := RoundOf(routes, policies, priority);
            total > 0 && start + total <= |draws| && k in policies
            && FirstTries(draws, start, total, k) == policies[k].weight
  {
    hide *;
    var total := RoundOf(routes, policies, priority);
    RoundIs(routes, policies, priority);
    SchedulerShare(policies, draws[0].before, Names(routes), priority, start, k);
    WindowFits(routes, draws, start, total);
    TriesAreLeads(routes, policies, draws, priority, start, total, k);
  }

  lemma RoundIs(routes: seq<Route>, policies: Routes.Policies, priority: int)
    ensures RoundOf(routes, policies, priority)
         == Routes.Counted(policies, Routes.TierOf(policies, Names(routes), priority))
  {
  }

  lemma WindowFits(routes: seq<Route>, draws: seq<Draw>, start: nat, n: nat)
    requires NoneLed(routes, draws, start, n)
    ensures start + n <= |draws|
  {
  }

  lemma SchedulerShare(policies: Routes.Policies, counters: Routes.Counters, names: seq<string>, priority: int,
                       start: nat, k: string)
    requires Distinct(names) && Routes.Covered(policies, names)
               && Routes.FreshTier(policies, counters, names, priority)
    requires k in names && Routes.InTier(policies, k, priority)
    ensures Routes.TierOf(policies, names, priority) != [] && k in policies
    ensures var total := Routes.Counted(policies, Routes.TierOf(policies, names, priority));
            total > 0 && Routes.Leads(policies, counters, names, priority, start + total, k)
                       - Routes.Leads(policies, counters, names, priority, start, k) == policies[k].weight
  {
    InSomeTier(policies, names, priority, k);
    assert k in policies;
    hide *;
    Routes.FairShare(policies, counters, names, priority, start, k);
  }

  lemma InSomeTier(policies: Routes.Policies, names: seq<string>, priority: int, k: string)
    requires Distinct(names) && k in names && Routes.InTier(policies, k, priority)
    ensures Routes.TierOf(policies, names, priority) != []
  {
    Routes.TierMembers(policies, names, priority);
    hide Routes.TierOf;
    assert k in Routes.TierOf(policies, names, priority);
  }

  // ---- cooldowns ----

  type Cooldowns = map<RouteKey, real>

  function Until(cooldown: Cooldowns, key: RouteKey): real {
    if key in cooldown then cooldown[key] else 0.0
  }

  /**
   One route that was tried: the accounts that could be loaded meanwhile and those open at its end, what its
   pool answered, whom it called and what came of each call, and whether the caller was gone by then.
   */
  datatype Visit = Visit(at: nat, provider: string, session: string, known: set<string>, open: set<string>,
                         answer: Answer, asked: seq<string>, tries: seq<Attempt>, gone: bool, failedAt: real)

  /**
   A request: what it asks for, what every call comes to, when the caller is found to have left, and the times.
   `gone(i)` and `goneAfter(i)` are asked when the i-th route's failure is judged and when it has been recorded.
   */
  datatype Query = Query(streaming: bool, model: string, session: string, script: nat -> nat -> Attempt,
                         gone: nat -> bool, goneAfter: nat -> bool, clock: nat -> nat -> real, start: real)

  /** The visit is the request's, to this route. */
  ghost predicate MadeFor(v: Visit, i: nat, route: Route, q: Query) {
    && v.at == i && v.provider == route.provider && v.session == q.session && v.gone == q.gone(i)
    && |v.tries| == |v.asked| && v.failedAt == q.clock(i)(|v.asked|)
    && forall k: nat :: k < |v.tries| ==> v.tries[k] == q.script(i)(k)
  }

  /** The route is put in cooldown. */
  predicate Cools(v: Visit) {
    !v.gone && (v.answer.Exhausted? || v.answer.Unavailable?)
  }

  function Script(tries: seq<Attempt>): nat -> Attempt {
    (i: nat) => if i < |tries| then tries[i] else Attempt(Served(""), false, false)
  }

  /** A visit that happened: the pool's answer is what its accounts' answers make it. */
  ghost predicate Happened(v: Visit) {
    |v.tries| == |v.asked| && EndsAmong(v.answer, v.asked, Script(v.tries), v.known, v.open)
  }

  /** Every account of the pool that was open by then had been called, each once, and each failed retryably. */
  predicate ExhaustedBy(v: Visit) {
    && !v.gone && |v.tries| == |v.asked| && Distinct(v.asked)
    && (forall k :: k in v.open ==> k in v.asked) && (forall k :: k in v.asked ==> k in v.known)
    && forall i :: 0 <= i < |v.tries| ==> Retryable(v.tries[i])
  }

  lemma CooledVisit(v: Visit)
    requires Cools(v) && Happened(v)
    ensures ExhaustedBy(v)
  {
    forall i | 0 <= i < |v.tries| ensures Retryable(v.tries[i]) {
      assert MovesOn(Script(v.tries)(i));
    }
  }

  lemma SameEnd(answer: Answer, asked: seq<string>, a: nat -> Attempt, b: nat -> Attempt, known: set<string>,
                open: set<string>)
    requires EndsAmong(answer, asked, a, known, open) && forall i: nat :: i < |asked| ==> a(i) == b(i)
    ensures EndsAmong(answer, asked, b, known, open)
  {
  }

  /** What can put a route in cooldown: a request's visit, or a stream that broke for its reader. */
  datatype Cause =
    | ByVisit(visit: Visit)
    | ByStream(from: string, committed: bool, clientAbort: bool, brokeAt: real)

  /** The model a request asked for, and what happened to it on one route. */
  datatype Mark = Mark(model: string, cause: Cause)

  /** A pool given up as exhausted, or a stream that broke before its first frame with its reader still there. */
  predicate Earned(m: Mark) {
    match m.cause
    case ByVisit(visit) => ExhaustedBy(visit)
    case ByStream(_, committed, clientAbort, _) => !committed && !clientAbort
  }

  function KeyOf(m: Mark): RouteKey {
    (m.model, if m.cause.ByVisit? then m.cause.visit.provider else m.cause.from)
  }

  function TimeOf(m: Mark): real {
    if m.cause.ByVisit? then m.cause.visit.failedAt else m.cause.brokeAt
  }

  /** The table that the marks of all requests and streams leave behind, in the order in which they were made. */
  function TableAfter(log: seq<Mark>): Cooldowns {
    if log == [] then map[]
    else
      var m := log[|log| - 1];
      TableAfter(log[..|log| - 1])[KeyOf(m) := TimeOf(m) + PoolCore.COOLDOWN]
  }

  lemma TableGrows(log: seq<Mark>, m: Mark)
    ensures TableAfter(log + [m]) == TableAfter(log)[KeyOf(m) := TimeOf(m) + PoolCore.COOLDOWN]
  {
    assert (log + [m])[..|log|] == log;
  }

  /** The last mark of a route. */
  function LastMark(log: seq<Mark>, key: RouteKey): Option<Mark> {
    if log == [] then None
    else if KeyOf(log[|log| - 1]) == key then Some(log[|log| - 1])
    else LastMark(log[..|log| - 1], key)
  }

  /** A route is in the table exactly if it was marked, and stands there for thirty seconds from its last mark. */
  lemma {:induction false} LastMarkDecides(log: seq<Mark>, key: RouteKey)
    ensures var last := LastMark(log, key);
            && (key in TableAfter(log) <==> last.Some?)
            && (last.Some? ==> last.value in log && KeyOf(last.value) == key
                               && TableAfter(log)[key] == TimeOf(last.value) + PoolCore.COOLDOWN)
  {
    if log != [] {
      LastMarkDecides(log[..|log| - 1], key);
      assert forall m :: m in log[..|log| - 1] ==> m in log;
    }
  }

  datatype Reply = Answered(body: string) | Gone | Refused | LastError | NoRoute

  /**
   What became of one route's turn: it was visited, or passed over, with `seen` marks on record when it was
   looked at.
   */
  datatype Turn = Visited(visit: Visit, seen: nat) | Passed(empty: bool, seen: nat)

  predicate WentOn(t: Turn) {
    t.Visited? ==> Cools(t.visit)
  }

  /** A turn was taken by the rules: a route is passed over exactly if it is empty or its cooldown lasts. */
  ghost predicate Ruled(t: Turn, i: nat, route: Route, q: Query, log: seq<Mark>) {
    match t
    case Visited(v, seen) =>
      && MadeFor(v, i, route, q) && Happened(v)
      && seen <= |log| && q.clock(i)(0) >= Until(TableAfter(log[..seen]), (q.model, route.provider))
    case Passed(empty, seen) =>
      seen <= |log| && (empty || q.clock(i)(0) < Until(TableAfter(log[..seen]), (q.model, route.provider)))
  }

  /** The route was looked at by then, and a visit that cooled it was recorded as the reason afterwards. */
  ghost predicate OnRecord(t: Turn, model: string, log: seq<Mark>, from: nat) {
    && from <= t.seen
    && (t.Visited? && Cools(t.visit) ==> exists k :: t.seen <= k < |log| && log[k] == Mark(model, ByVisit(t.visit)))
  }

  lemma RecordGrows(t: Turn, i: nat, route: Route, q: Query, log: seq<Mark>, more: seq<Mark>, from: nat)
    requires log <= more
    ensures Ruled(t, i, route, q, log) ==> Ruled(t, i, route, q, more)
    ensures OnRecord(t, q.model, log, from) ==> OnRecord(t, q.model, more, from)
  {
    hide Happened, TableAfter, MadeFor;
    if t.seen <= |log| {
      assert more[..t.seen] == log[..t.seen];
    }
  }

  /** All turns so far went by the rules, and those that cooled a route are on record. */
  ghost predicate Progress(turns: seq<Turn>, ordered: seq<Route>, q: Query, log: seq<Mark>, from: nat) {
    && |turns| <= |ordered|
    && forall i :: 0 <= i < |turns| ==>
         Ruled(turns[i], i, ordered[i], q, log) && OnRecord(turns[i], q.model, log, from)
  }

  /** The marks the turns themselves make. */
  function MarksOf(turns: seq<Turn>, model: string): seq<Mark> {
    if turns == [] then []
    else
      var last := turns[|turns| - 1];
      MarksOf(turns[..|turns| - 1], model)
      + if last.Visited? && Cools(last.visit) then [Mark(model, ByVisit(last.visit))] else []
  }

  lemma MarksGrow(log: seq<Mark>, turns: seq<Turn>, t: Turn, model: string)
    ensures log + MarksOf(turns, model) + MarksOf([t], model) == log + MarksOf(turns + [t], model)
  {
    assert (turns + [t])[..|turns|] == turns && [t][..0] == [];
    assert MarksOf([t], model) == MarksOf([], model) + MarksOf([t], model);
  }

  lemma OneMark(v: Visit, seen: nat, model: string)
    ensures MarksOf([Visited(v, seen)], model) == if Cools(v) then [Mark(model, ByVisit(v))] else []
  {
  }

  ghost predicate AllWentOn(turns: seq<Turn>) {
    forall t :: t in turns ==> WentOn(t)
  }

  lemma ProgressGrows(turns: seq<Turn>, ordered: seq<Route>, q: Query, log: seq<Mark>, more: seq<Mark>, from: nat)
    requires Progress(turns, ordered, q, log, from) && log <= more
    ensures Progress(turns, ordered, q, more, from)
  {
    hide Ruled, OnRecord;
    forall i | 0 <= i < |turns|
      ensures Ruled(turns[i], i, ordered[i], q, more) && OnRecord(turns[i], q.model, more, from)
    {
      RecordGrows(turns[i], i, ordered[i], q, log, more, from);
    }
  }

  lemma NoTurns(ordered: seq<Route>, q: Query, log: seq<Mark>)
    ensures Progress([], ordered, q, log, |log|) && AllWentOn([]) && !AnyVisited([])
    ensures MarksOf([], q.model) == []
  {
  }

  /** A further turn, during which the record grew from `before` to `log`. */
  lemma NextTurn(turns: seq<Turn>, t: Turn, ordered: seq<Route>, q: Query, before: seq<Mark>, log: seq<Mark>, from: nat)
    requires Progress(turns, ordered, q, before, from) && |turns| < |ordered|
    requires from <= |before| && before <= log && OnRecord(t, q.model, log, |before|)
    requires Ruled(t, |turns|, ordered[|turns|], q, log)
    ensures Progress(turns + [t], ordered, q, log, from)
    ensures t.Visited? ==> t.visit.at == |turns|
    ensures AllWentOn(turns) && WentOn(t) ==> AllWentOn(turns + [t])
  {
    ProgressGrows(turns, ordered, q, before, log, from);
    hide Happened, TableAfter, WentOn;
  }

  ghost predicate AnyVisited(turns: seq<Turn>) {
    exists t :: t in turns && t.Visited?
  }

  lemma AnyGrows(turns: seq<Turn>, t: Turn)
    ensures AnyVisited(turns + [t]) <==> AnyVisited(turns) || t.Visited?
  {
    assert t in turns + [t];
    assert forall x :: x in turns ==> x in turns + [t];
  }

  lemma GivesUpAfter(turns: seq<Turn>, goneAfter: nat -> bool)
    requires AllWentOn(turns)
    ensures Replies(if AnyVisited(turns) then LastError else NoRoute, turns, |turns|, goneAfter)
  {
    hide WentOn;
    forall t | t in turns && !AnyVisited(turns) ensures t.Passed? {
    }
  }

  /** What a request answers follows from its last turn, and it gives up only after every route had its turn. */
  ghost predicate Replies(reply: Reply, turns: seq<Turn>, routes: nat, goneAfter: nat -> bool) {
    match reply
    case NoRoute => |turns| == routes && forall t :: t in turns ==> t.Passed?
    case LastError => |turns| == routes && AllWentOn(turns) && AnyVisited(turns)
    case Answered(body) => Ended(turns) && turns[|turns| - 1].visit.answer == Done(body)
    case Refused => Ended(turns) && turns[|turns| - 1].visit.answer == Rejected && !turns[|turns| - 1].visit.gone
    case Gone => Ended(turns) && CallerGone(turns[|turns| - 1].visit, goneAfter)
  }

  /** Every turn but the last went on, and the last was a visit. */
  ghost predicate Ended(turns: seq<Turn>) {
    turns != [] && AllWentOn(turns[..|turns| - 1]) && turns[|turns| - 1].Visited?
  }

  predicate CallerGone(v: Visit, goneAfter: nat -> bool) {
    !v.answer.Done? && (v.gone || v.answer.Aborted? || (Cools(v) && goneAfter(v.at)))
  }

  lemma LastTurn(turns: seq<Turn>, t: Turn, routes: nat, goneAfter: nat -> bool)
    requires AllWentOn(turns) && t.Visited?
    ensures var v, all := t.visit, turns + [t];
            && (v.answer.Done? ==> Replies(Answered(v.answer.response), all, routes, goneAfter))
            && (CallerGone(v, goneAfter) ==> Replies(Gone, all, routes, goneAfter))
            && (v.answer.Rejected? && !v.gone ==> Replies(Refused, all, routes, goneAfter))
  {
    assert (turns + [t])[..|turns|] == turns;
  }

  // ---- the router object ----

  function PoolsOf(routes: seq<Route>): set<Pool> {
    set r | r in routes :: r.pool
  }

  ghost function SlotsOf(routes: seq<Route>): set<Slot>
    reads PoolsOf(routes)
  {
    set r, k | r in routes && k in r.pool.slots :: r.pool.slots[k]
  }

  /** All pools are well formed, share the pin store, and hold no account outside `known`. */
  ghost predicate AllReady(routes: seq<Route>, affinity: Affinity?, known: set<string>)
    reads PoolsOf(routes)
  {
    forall r :: r in routes ==> r.pool.Valid() && r.pool.affinity == affinity && r.pool.slots.Keys <= known
  }

  /** The slot tables of the routes' pools. */
  ghost function TablesOf(routes: seq<Route>): map<Pool, map<string, Slot>>
    reads PoolsOf(routes)
  {
    map p | p in PoolsOf(routes) :: p.slots
  }

  ghost function SlotsIn(tables: map<Pool, map<string, Slot>>): set<Slot> {
    set p, k | p in tables && k in tables[p] :: tables[p][k]
  }

  lemma SlotsAre(routes: seq<Route>)
    ensures SlotsOf(routes) == SlotsIn(TablesOf(routes)) && TablesOf(routes).Keys == PoolsOf(routes)
    ensures forall r :: r in routes ==> r.pool in TablesOf(routes) && TablesOf(routes)[r.pool] == r.pool.slots
  {
    var tables := TablesOf(routes);
    forall r | r in routes ensures r.pool in tables && tables[r.pool] == r.pool.slots {
      assert r.pool in PoolsOf(routes);
    }
    forall s | s in SlotsOf(routes) ensures s in SlotsIn(tables) {
      var r, k :| r in routes && k in r.pool.slots && s == r.pool.slots[k];
      assert k in tables[r.pool] && tables[r.pool][k] == s;
    }
    forall s | s in SlotsIn(tables) ensures s in SlotsOf(routes) {
      var p, k :| p in tables && k in tables[p] && s == tables[p][k];
      var r :| r in routes && r.pool == p;
      assert k in r.pool.slots && r.pool.slots[k] == s;
    }
  }

  /** When one pool changes, every new slot of the routes is one of its. */
  lemma SlotsGrow(routes: seq<Route>, route: Route, was: map<Pool, map<string, Slot>>)
    requires route in routes && was.Keys == PoolsOf(routes)
    requires forall r :: r in routes ==> r.pool in was && (r.pool == route.pool || r.pool.slots == was[r.pool])
    ensures SlotsOf(routes) - SlotsIn(was) <= route.pool.slots.Values - was[route.pool].Values
  {
  }

  /** What a turn found of its route's pool: the accounts open at a visit's end, or that there were none at all. */
  ghost predicate SawPool(t: Turn, slots: map<string, Slot>, hard: set<PoolCore.Block>, upstream: string) {
    match t
    case Visited(v, _) => slots != map[] && v.open == OpenSet(slots, hard, upstream)
    case Passed(empty, _) => empty <==> slots == map[]
  }

  lemma NotVisited(empty: bool, log: seq<Mark>, from: nat, model: string, slots: map<string, Slot>,
                   hard: set<PoolCore.Block>, upstream: string)
    requires from <= |log|
    ensures OnRecord(Passed(empty, |log|), model, log, from) && MarksOf([Passed(empty, |log|)], model) == []
    ensures (empty <==> slots == map[]) ==> SawPool(Passed(empty, |log|), slots, hard, upstream)
  {
  }

  lemma DidVisit(v: Visit, at: nat, route: Route, q: Query, seen: seq<Mark>, log: seq<Mark>, from: nat,
                 slots: map<string, Slot>, hard: set<PoolCore.Block>)
    requires MadeFor(v, at, route, q) && Happened(v) && from <= |seen| && seen <= log
    requires q.clock(at)(0) >= Until(TableAfter(seen), (q.model, route.provider))
    requires Cools(v) ==> exists k :: |seen| <= k < |log| && log[k] == Mark(q.model, ByVisit(v))
    ensures var t := Visited(v, |seen|);
            && Ruled(t, at, route, q, log) && OnRecord(t, q.model, log, from)
            && MarksOf([t], q.model) == (if Cools(v) then [Mark(q.model, ByVisit(v))] else [])
            && (slots != map[] && v.open == OpenSet(slots, hard, route.upstream) ==>
                 SawPool(t, slots, hard, route.upstream))
  {
    assert log[..|seen|] == seen;
    OneMark(v, |seen|, q.model);
    hide MadeFor, Happened, Until, TableAfter, OpenSet;
  }

  /** The lease a stream keeps is on the account that served, the last one called on the last route. */
  predicate HeldBy(held: Slot, turns: seq<Turn>) {
    turns != [] && var last := turns[|turns| - 1];
    last.Visited? && last.visit.asked != [] && held.key == last.visit.asked[|last.visit.asked| - 1]
  }

  lemma NothingTried(goneAfter: nat -> bool)
    ensures Replies(NoRoute, [], 0, goneAfter)
  {
  }

  lemma PoolInside(routes: seq<Route>, route: Route)
    requires route in routes
    ensures route.pool in PoolsOf(routes) && route.pool.slots.Values <= SlotsOf(routes)
  {
  }

  class Router {
    const routes: map<string, seq<Route>>
    const scheduler: map<string, Routes.RouteScheduler>
    var cooldown: Cooldowns
    const affinity: Affinity?

    /** Every mark ever made, by whichever request or stream. */
    ghost var log: seq<Mark>

    /** The table is what the marks make it, and each mark was earned. Every writer of the table keeps this. */
    ghost predicate Accounted()
      reads this
    {
      cooldown == TableAfter(log) && forall m :: m in log ==> Earned(m)
    }

    constructor (routes: map<string, seq<Route>>, scheduler: map<string, Routes.RouteScheduler>, affinity: Affinity?)
      ensures this.routes == routes && this.scheduler == scheduler && this.affinity == affinity
      ensures Accounted() && cooldown == map[] && log == []
    {
      this.routes, this.scheduler, this.affinity, cooldown, log := routes, scheduler, affinity, map[], [];
    }

    /**
     However requests, streams, reloads and exclusions interleave, a route is in cooldown only for a reason:
     its last mark is on record, set the deadline, and was earned by a visit that called every account open
     by its end, each once and each failing retryably, or by a stream that broke before its first frame.
     */
    lemma CoolsOnlyWhenExhausted(key: RouteKey)
      requires Accounted() && key in cooldown
      ensures var last := LastMark(log, key);
              && last.Some? && last.value in log && KeyOf(last.value) == key && Earned(last.value)
              && cooldown[key] == TimeOf(last.value) + PoolCore.COOLDOWN
    {
      LastMarkDecides(log, key);
      hide Earned;
    }

    /**
     What construction guarantees: a scheduler for every routed model, one route per provider, one shared pin
     store.
     */
    ghost predicate Valid()
    {
      && routes.Keys == scheduler.Keys
      && forall m :: m in routes ==> Distinct(Names(routes[m]))
    }

    ghost predicate Ready(model: string, known: set<string>)
      requires model in routes
      reads PoolsOf(routes[model]), affinity
    {
      AllReady(routes[model], affinity, known) && PinsHold()
    }

    ghost predicate PinsHold()
      reads affinity
    {
      affinity != null ==> Affinities.Inv(affinity.Now())
    }

    method PolicyOrder(model: string) returns (ordered: seq<Route>)
      requires Valid() && model in routes
      modifies scheduler[model]
      ensures ordered == RoutesOf(routes[model],
                                  Routes.Order(scheduler[model].policies, old(scheduler[model].counters),
                                               Names(routes[model])).1)
      ensures scheduler[model].counters == Routes.Order(scheduler[model].policies, old(scheduler[model].counters),
                                                        Names(routes[model])).0
    {
      var given := routes[model];
      var byProvider: map<string, Route> := map[];
      var providers: seq<string> := [];
      for i := 0 to |given|
        invariant providers == Names(given[..i])
        invariant forall p :: RouteOf(given[..i], p) == if p in byProvider then Some(byProvider[p]) else None
      {
        assert given[..i + 1][..i] == given[..i];
        providers := providers + [given[i].provider];
        byProvider := byProvider[given[i].provider := given[i]];
      }
      assert given[..|given|] == given;
      var names := scheduler[model].Rank(providers);
      ordered := [];
      for i := 0 to |names|
        invariant ordered == RoutesOf(given, names[..i])
      {
        assert names[..i + 1][..i] == names[..i];
        if names[i] in byProvider {
          ordered := ordered + [byProvider[names[i]]];
        }
      }
      assert names[..|names|] == names;
    }

    /** Between the draw and the lookup others may draw from the scheduler and use the pin store. */
    method OtherDraws(model: string, others: Meanwhile, ghost known: set<string>)
      requires Valid() && model in routes && Ready(model, known)
      modifies scheduler[model], affinity
      ensures Ready(model, known)
      ensures others.Nobody? ==> scheduler[model].counters == old(scheduler[model].counters)
                                 && (affinity != null ==> affinity.Now() == old(affinity.Now()))
    {
      hide PoolCore.Inv;
      if others.Nobody? {
        return;
      }
      scheduler[model].counters := *;
      var pins: map<string, Entry> := *;
      if affinity != null && |pins| <= LIMIT && "" !in pins {
        affinity.enabled, affinity.entries := *, pins;
      }
    }

    /** The policy order, and then the conversation's provider first, if a pin is found. */
    method Ordered(model: string, session: string, now: real, others: Meanwhile, ghost known: set<string>)
      returns (ordered: seq<Route>, ghost pinned: Option<string>)
      requires Valid() && model in routes && Ready(model, known)
      modifies scheduler[model], affinity
      ensures Ready(model, known)
      ensures ordered == TryingOrder(routes[model], scheduler[model].policies, old(scheduler[model].counters), pinned)
      ensures others.Nobody? ==>
                && pinned == old(PinFound(session, now))
                && scheduler[model].counters == Routes.Order(scheduler[model].policies, old(scheduler[model].counters),
                                                             Names(routes[model])).0
      ensures others.Nobody? && affinity != null ==> affinity.Now() == old(AfterLookup(affinity.Now(), session, now))
    {
      hide PoolCore.Inv, RoutesOf, Routes.Order, Affinities.Inv;
      ordered := PolicyOrder(model);
      OtherDraws(model, others, known);
      pinned := PinFound(session, now);
      if affinity == null || session == "" {
        return;
      }
      StepKeeps(affinity.Now(), Affinities.Lookup(session, now), AfterLookup(affinity.Now(), session, now));
      var found := affinity.LookUp(session, now);
      if found.None? {
        return;
      }
      var provider := ProviderOf(found.value);
      for i := 0 to |ordered|
        invariant IndexOf(ordered, provider) == i + IndexOf(ordered[i..], provider)
      {
        if ordered[i].provider == provider {
          return ToFront(ordered, i), pinned;
        }
        assert ordered[i..][1..] == ordered[i + 1..];
      }
    }

    /** The account the conversation is pinned to at this moment. */
    ghost function PinFound(session: string, now: real): Option<string>
      reads affinity
    {
      if affinity == null then None else Hit(affinity.Now(), session, now)
    }

    method MarkFailed(model: string, provider: string, now: real, ghost mark: Mark)
      requires Accounted() && Earned(mark) && KeyOf(mark) == (model, provider) && TimeOf(mark) == now
      modifies this`cooldown, this`log
      ensures Accounted() && log == old(log) + [mark]
      ensures cooldown == old(cooldown)[(model, provider) := now + PoolCore.COOLDOWN]
    {
      hide Earned;
      TableGrows(log, mark);
      cooldown := cooldown[(model, provider) := now + PoolCore.COOLDOWN];
      log := log + [mark];
    }

    // ---- what others do between the steps of a request ----

    /** Other requests and streams mark any routes of any models, as long as they earned it. */
    method OtherMarks()
      requires Accounted()
      modifies this`cooldown, this`log
      ensures Accounted() && old(log) <= log
    {
      hide TableAfter, Earned;
      var rounds: nat := *;
      while rounds > 0
        invariant Accounted() && old(log) <= log
      {
        var mark: Mark := *;
        if Earned(mark) {
          MarkFailed(KeyOf(mark).0, KeyOf(mark).1, TimeOf(mark), mark);
        }
        rounds := rounds - 1;
      }
    }

    /** On one pool: other requests, and, if others reload, reloads and new exclusions. */
    method OtherUse(model: string, route: Route, others: Meanwhile, known: set<string>)
      requires model in routes && Ready(model, known) && route in routes[model]
      modifies affinity, PoolsOf(routes[model]), SlotsOf(routes[model])
      ensures Ready(model, known)
      ensures fresh(SlotsOf(routes[model]) - old(SlotsOf(routes[model])))
      ensures !others.Reloads? ==> forall r :: r in routes[model] ==>
                r.pool.slots == old(r.pool.slots) && r.pool.hard == old(r.pool.hard)
    {
      hide PoolCore.Inv, Affinities.Inv, SlotsOf, Pool.Valid;
      PoolInside(routes[model], route);
      ghost var given, was := routes[model], TablesOf(routes[model]);
      SlotsAre(given);
      route.pool.Elsewhere(others, known);
      forall r | r in given ensures r.pool.Valid() && r.pool.affinity == affinity && r.pool.slots.Keys <= known {
      }
      SlotsGrow(given, route, was);
      assert SlotsIn(was) == old(SlotsOf(given)) && was[route.pool] == old(route.pool.slots);
      assert fresh(route.pool.slots.Values - old(route.pool.slots.Values));
      forall s | s in SlotsOf(routes[model]) && s !in old(SlotsOf(routes[model])) ensures fresh(s) {
        assert s in SlotsOf(given) - SlotsIn(was);
      }
    }

    method Others(model: string, others: Meanwhile, known: set<string>)
      requires Accounted() && model in routes && Ready(model, known)
      modifies this`cooldown, this`log, affinity, PoolsOf(routes[model]), SlotsOf(routes[model])
      ensures Accounted() && old(log) <= log && Ready(model, known) && (others.Nobody? ==> log == old(log))
      ensures fresh(SlotsOf(routes[model]) - old(SlotsOf(routes[model])))
      ensures !others.Reloads? ==> forall r :: r in routes[model] ==>
                r.pool.slots == old(r.pool.slots) && r.pool.hard == old(r.pool.hard)
      ensures others.Nobody? ==> forall r :: r in routes[model] ==>
                r.pool.Now() == old(r.pool.Now()) && r.pool.Flights() == old(r.pool.Flights())
      ensures others.Nobody? && affinity != null ==> affinity.Now() == old(affinity.Now())
    {
      hide Accounted, PoolCore.Inv, Affinities.Inv, SlotsOf, Ready;
      if others.Nobody? {
        return;
      }
      OtherMarks();
      var given := routes[model];
      for i := 0 to |given|
        invariant Accounted() && old(log) <= log && Ready(model, known)
        invariant fresh(SlotsOf(routes[model]) - old(SlotsOf(routes[model])))
        invariant !others.Reloads? ==> forall r :: r in routes[model] ==>
                    r.pool.slots == old(r.pool.slots) && r.pool.hard == old(r.pool.hard)
      {
        ghost var mid := SlotsOf(routes[model]);
        label Before:
        OtherUse(model, given[i], others, known);
        forall s | s in SlotsOf(routes[model]) && s !in old(SlotsOf(routes[model])) ensures fresh(s) {
          assert s in mid ==> s in mid - old(SlotsOf(routes[model]));
          assert s !in mid ==> fresh@Before(s);
        }
      }
    }

    method ForgetProvider(session: string, provider: string, now: real)
      requires affinity != null ==> Affinities.Inv(affinity.Now())
      modifies affinity
      ensures affinity != null ==> Affinities.Inv(affinity.Now())
      ensures affinity != null ==> affinity.Now() == old(AfterForgetProvider(affinity.Now(), session, provider, now))
    {
      if affinity == null || session == "" {
        return;
      }
      StepKeeps(affinity.Now(), Forget(session), affinity.Now().(entries := affinity.entries - {session}));
      var pinned := affinity.PinnedTo(session, now);
      if pinned.Some? && ProviderOf(pinned.value) == provider {
        affinity.ForgetSession(session);
      }
    }

    /** Run the request through one route's pool; nothing of the other routes changes but lease counts. */
    method AskPool(route: Route, streaming: bool, model: string, session: string, script: nat -> Attempt,
                   clock: nat -> real, others: Meanwhile, known: set<string>)
      returns (answer: Answer, asked: seq<string>, held: Slot?, ghost cores: seq<PoolCore.Core>)
      requires model in routes && Ready(model, known) && route in routes[model]
      modifies affinity, PoolsOf(routes[model]), SlotsOf(routes[model])
      ensures Ready(model, known)
      ensures fresh(SlotsOf(routes[model]) - old(SlotsOf(routes[model])))
      ensures !others.Reloads? ==> forall r :: r in routes[model] ==>
                r.pool.slots == old(r.pool.slots) && r.pool.hard == old(r.pool.hard)
      ensures EndsAmong(answer, asked, script, known, OpenSet(route.pool.slots, route.pool.hard, route.upstream))
      ensures held != null <==> streaming && answer.Done?
      ensures held != null ==> asked != [] && held.key == asked[|asked| - 1]
      ensures held != null && !others.Reloads? ==> held.key in route.pool.slots && held == route.pool.slots[held.key]
      ensures others.Nobody? ==>
                Follows(old(route.pool.Now()), old(route.pool.PinOf(session, clock(0))), route.upstream, script, clock,
                        old(route.pool.Flights()), asked, cores)
    {
      hide PoolCore.Inv, Affinities.Inv, SlotsOf, Pool.Valid, EndsAmong, OpenSet, Follows, Finds, Pool.Now,
        Pool.Flights,
           Pool.PinOf;
      PoolInside(routes[model], route);
      ghost var given, was := routes[model], TablesOf(routes[model]);
      SlotsAre(given);
      answer, asked, held, cores := route.pool.Failover(streaming, route.upstream, session, script, clock, others,
                                                        known);
      forall r | r in given ensures r.pool.Valid() && r.pool.affinity == affinity && r.pool.slots.Keys <= known {
      }
      SlotsGrow(given, route, was);
      assert SlotsIn(was) == old(SlotsOf(given)) && was[route.pool] == old(route.pool.slots);
      assert fresh(route.pool.slots.Values - old(route.pool.slots.Values));
      forall s | s in SlotsOf(routes[model]) && s !in old(SlotsOf(routes[model])) ensures fresh(s) {
        assert s in SlotsOf(given) - SlotsIn(was);
      }
    }

    /** A route's turn as it goes on record. */
    method VisitRoute(route: Route, at: nat, q: Query, others: Meanwhile, known: set<string>)
      returns (visit: Visit, held: Slot?, ghost cores: seq<PoolCore.Core>)
      requires q.model in routes && Ready(q.model, known) && route in routes[q.model]
      modifies affinity, PoolsOf(routes[q.model]), SlotsOf(routes[q.model])
      ensures Ready(q.model, known)
      ensures fresh(SlotsOf(routes[q.model]) - old(SlotsOf(routes[q.model])))
      ensures !others.Reloads? ==> forall r :: r in routes[q.model] ==>
                r.pool.slots == old(r.pool.slots) && r.pool.hard == old(r.pool.hard)
      ensures MadeFor(visit, at, route, q) && visit.known == known
      ensures visit.open == OpenSet(route.pool.slots, route.pool.hard, route.upstream)
      ensures Happened(visit) && (held != null <==> q.streaming && visit.answer.Done?)
      ensures held != null ==> visit.asked != [] && held.key == visit.asked[|visit.asked| - 1]
      ensures held != null && !others.Reloads? ==> held.key in route.pool.slots && held == route.pool.slots[held.key]
      ensures others.Nobody? ==>
                Follows(old(route.pool.Now()), old(route.pool.PinOf(q.session, q.clock(at)(0))), route.upstream,
                        q.script(at), q.clock(at), old(route.pool.Flights()), visit.asked, cores)
    {
      hide Ready, EndsAmong, OpenSet, SlotsOf, PoolsOf, Follows, Pool.Now, Pool.Flights, Pool.PinOf;
      var answer, asked, lease;
      answer, asked, lease, cores := AskPool(route, q.streaming, q.model, q.session, q.script(at), q.clock(at), others,
                                             known);
      held := lease;
      var tries := seq(|asked|, (i: nat) requires i < |asked| => q.script(at)(i));
      var open := OpenSet(route.pool.slots, route.pool.hard, route.upstream);
      SameEnd(answer, asked, q.script(at), Script(tries), known, open);
      visit := Visit(at, route.provider, q.session, known, open, answer, asked, tries, q.gone(at),
                     q.clock(at)(|asked|));
    }

    /** Whether the route may be tried: first its pool is looked at, then, in a step of its own, the cooldown table. */
    method Consider(route: Route, at: nat, q: Query, others: Meanwhile, known: set<string>)
      returns (empty: bool, usable: bool)
      requires Accounted() && q.model in routes && Ready(q.model, known) && route in routes[q.model]
      modifies this`cooldown, this`log, affinity, PoolsOf(routes[q.model]), SlotsOf(routes[q.model])
      ensures Accounted() && old(log) <= log && Ready(q.model, known)
      ensures fresh(SlotsOf(routes[q.model]) - old(SlotsOf(routes[q.model])))
      ensures !others.Reloads? ==> forall r :: r in routes[q.model] ==>
                r.pool.slots == old(r.pool.slots) && r.pool.hard == old(r.pool.hard)
      ensures others.Nobody? ==> log == old(log)
      ensures usable <==> !empty && q.clock(at)(0) >= Until(cooldown, (q.model, route.provider))
      ensures !usable ==> Ruled(Passed(empty, |log|), at, route, q, log)
      ensures usable ==> q.clock(at)(0) >= Until(TableAfter(log[..|log|]), (q.model, route.provider))
      ensures !others.Reloads? ==> (empty <==> route.pool.slots == map[])
    {
      hide Accounted, Ready, SlotsOf, PoolsOf, Until;
      Others(q.model, others, known);
      empty := route.pool.slots == map[];
      ghost var mid := SlotsOf(routes[q.model]);
      label Look:
      Others(q.model, others, known);
      forall s | s in SlotsOf(routes[q.model]) && s !in old(SlotsOf(routes[q.model])) ensures fresh(s) {
        assert s in mid ==> s in mid - old(SlotsOf(routes[q.model]));
        assert s !in mid ==> fresh@Look(s);
      }
      usable := !empty && q.clock(at)(0) >= Until(cooldown, (q.model, route.provider));
      StillCooling(route, at, q);
    }

    lemma StillCooling(route: Route, at: nat, q: Query)
      requires Accounted()
      ensures log[..|log|] == log && cooldown == TableAfter(log)
      ensures q.clock(at)(0) < Until(cooldown, (q.model, route.provider)) ==>
                Ruled(Passed(false, |log|), at, route, q, log)
    {
      assert log[..|log|] == log;
    }

    /** The route cools down, and then the conversation may go elsewhere. */
    method Abandon(model: string, session: string, visit: Visit, others: Meanwhile, known: set<string>)
      requires Accounted() && ExhaustedBy(visit) && model in routes && Ready(model, known)
      modifies this`cooldown, this`log, affinity, PoolsOf(routes[model]), SlotsOf(routes[model])
      ensures Accounted() && old(log) <= log && Ready(model, known)
      ensures fresh(SlotsOf(routes[model]) - old(SlotsOf(routes[model])))
      ensures !others.Reloads? ==> forall r :: r in routes[model] ==>
                r.pool.slots == old(r.pool.slots) && r.pool.hard == old(r.pool.hard)
      ensures exists k :: |old(log)| <= k < |log| && log[k] == Mark(model, ByVisit(visit))
      ensures others.Nobody? ==> log == old(log) + [Mark(model, ByVisit(visit))]
      ensures others.Nobody? ==> PinnedElsewhere(session, visit.provider, visit.failedAt)
    {
      hide Accounted, SlotsOf, ExhaustedBy, Ready;
      Others(model, others, known);
      ghost var k := |log|;
      MarkFailed(model, visit.provider, visit.failedAt, Mark(model, ByVisit(visit)));
      assert log[k] == Mark(model, ByVisit(visit));
      ghost var mid := SlotsOf(routes[model]);
      label Marking:
      Others(model, others, known);
      forall s | s in SlotsOf(routes[model]) && s !in old(SlotsOf(routes[model])) ensures fresh(s) {
        assert s in mid ==> s in mid - old(SlotsOf(routes[model]));
        assert s !in mid ==> fresh@Marking(s);
      }
      Unpin(model, session, visit.provider, visit.failedAt, known);
    }

    method Unpin(model: string, session: string, provider: string, now: real, ghost known: set<string>)
      requires model in routes && Ready(model, known)
      modifies affinity
      ensures Ready(model, known) && SlotsOf(routes[model]) == old(SlotsOf(routes[model]))
      ensures unchanged(this) && unchanged(PoolsOf(routes[model]))
      ensures PinnedElsewhere(session, provider, now)
    {
      hide PoolCore.Inv, Affinities.Inv;
      ForgetProvider(session, provider, now);
    }

    /** The conversation is not pinned to this provider's accounts. */
    ghost predicate PinnedElsewhere(session: string, provider: string, now: real)
      reads affinity
    {
      PinFound(session, now).Some? ==> ProviderOf(PinFound(session, now).value) != provider
    }

    /**
     One route's turn: pass it over or run the request through its pool, and if that pool gives out with the
     caller still there, cool the route and let the conversation go elsewhere. Between any two steps others
     mark routes and use the pools, and if they reload, credentials and exclusions change too.
     */
    method TakeTurn(route: Route, at: nat, q: Query, others: Meanwhile, known: set<string>)
      returns (visited: Option<Visit>, ghost turn: Turn, held: Slot?)
      requires Accounted() && q.model in routes && Ready(q.model, known) && route in routes[q.model]
      modifies this`cooldown, this`log, affinity, PoolsOf(routes[q.model]), SlotsOf(routes[q.model])
      ensures Accounted() && old(log) <= log && Ready(q.model, known)
      ensures fresh(SlotsOf(routes[q.model]) - old(SlotsOf(routes[q.model])))
      ensures !others.Reloads? ==> forall r :: r in routes[q.model] ==>
                r.pool.slots == old(r.pool.slots) && r.pool.hard == old(r.pool.hard)
      ensures Ruled(turn, at, route, q, log) && OnRecord(turn, q.model, log, |old(log)|)
      ensures visited == if turn.Visited? then Some(turn.visit) else None
      ensures held != null <==> q.streaming && visited.Some? && visited.value.answer.Done?
      ensures !others.Reloads? ==> SawPool(turn, route.pool.slots, route.pool.hard, route.upstream)
      ensures held != null ==> visited.value.asked != [] && held.key == visited.value.asked[|visited.value.asked| - 1]
      ensures held != null && !others.Reloads? ==> held.key in route.pool.slots && held == route.pool.slots[held.key]
      ensures others.Nobody? ==> log == old(log) + MarksOf([turn], q.model)
      ensures others.Nobody? && turn.Visited? && Cools(turn.visit) ==>
                PinnedElsewhere(q.session, route.provider, turn.visit.failedAt)
    {
      hide Accounted, Ready, Happened, SlotsOf, PoolsOf, OpenSet, Until, TableAfter, Follows, OnRecord, SawPool,
        MarksOf,
           Ruled, Pool.Now, Pool.Flights, Pool.PinOf;
      var empty, usable := Consider(route, at, q, others, known);
      assert log[..|log|] == log;
      if !usable {
        NotVisited(empty, log, |old(log)|, q.model, route.pool.slots, route.pool.hard, route.upstream);
        return None, Passed(empty, |log|), null;
      }
      ghost var mid, seen := SlotsOf(routes[q.model]), log;
      label Visit:
      var visit, lease := RunTurn(route, at, q, others, known);
      forall s | s in SlotsOf(routes[q.model]) && s !in old(SlotsOf(routes[q.model])) ensures fresh(s) {
        assert s in mid ==> s in mid - old(SlotsOf(routes[q.model]));
        assert s !in mid ==> fresh@Visit(s);
      }
      DidVisit(visit, at, route, q, seen, log, |old(log)|, route.pool.slots, route.pool.hard);
      visited, turn, held := Some(visit), Visited(visit, |seen|), lease;
    }

    /** Run the request through the pool, and give the route up if that gave out with the caller still there. */
    method RunTurn(route: Route, at: nat, q: Query, others: Meanwhile, known: set<string>)
      returns (visit: Visit, held: Slot?)
      requires Accounted() && q.model in routes && Ready(q.model, known) && route in routes[q.model]
      modifies this`cooldown, this`log, affinity, PoolsOf(routes[q.model]), SlotsOf(routes[q.model])
      ensures Accounted() && old(log) <= log && Ready(q.model, known)
      ensures fresh(SlotsOf(routes[q.model]) - old(SlotsOf(routes[q.model])))
      ensures !others.Reloads? ==> forall r :: r in routes[q.model] ==>
                r.pool.slots == old(r.pool.slots) && r.pool.hard == old(r.pool.hard)
      ensures MadeFor(visit, at, route, q) && Happened(visit)
      ensures Cools(visit) ==> exists k :: |old(log)| <= k < |log| && log[k] == Mark(q.model, ByVisit(visit))
      ensures !others.Reloads? ==> visit.open == OpenSet(route.pool.slots, route.pool.hard, route.upstream)
      ensures held != null <==> q.streaming && visit.answer.Done?
      ensures held != null ==> visit.asked != [] && held.key == visit.asked[|visit.asked| - 1]
      ensures held != null && !others.Reloads? ==> held.key in route.pool.slots && held == route.pool.slots[held.key]
      ensures others.Nobody? ==> log == old(log) + if Cools(visit) then [Mark(q.model, ByVisit(visit))] else []
      ensures others.Nobody? && Cools(visit) ==> PinnedElsewhere(q.session, route.provider, visit.failedAt)
    {
      hide Accounted, Ready, Happened, SlotsOf, PoolsOf, OpenSet, ExhaustedBy, Follows, PinnedElsewhere, Pool.Now,
           Pool.Flights, Pool.PinOf;
      ghost var cores;
      visit, held, cores := VisitRoute(route, at, q, others, known);
      if Cools(visit) {
        CooledVisit(visit);
        ghost var mid := SlotsOf(routes[q.model]);
        label Mark:
        Abandon(q.model, q.session, visit, others, known);
        forall s | s in SlotsOf(routes[q.model]) && s !in old(SlotsOf(routes[q.model])) ensures fresh(s) {
          assert s in mid ==> s in mid - old(SlotsOf(routes[q.model]));
          assert s !in mid ==> fresh@Mark(s);
        }
      }
    }

    /**
     Serve a request across the model's routes. A completion and a stream share this loop.
     */
    method Serve(q: Query, others: Meanwhile, known: set<string>)
      returns (reply: Reply, ordered: seq<Route>, ghost turns: seq<Turn>, held: Slot?, ghost pinned: Option<string>)
      requires Valid() && Accounted() && q.model in routes && Ready(q.model, known)
      modifies this`cooldown, this`log, scheduler[q.model], affinity, PoolsOf(routes[q.model]), SlotsOf(routes[q.model])
      ensures Accounted() && old(log) <= log && Ready(q.model, known)
      ensures multiset(ordered) == multiset(routes[q.model]) && forall r :: r in ordered ==> r in routes[q.model]
      ensures Arranged(q.model, others, old(scheduler[q.model].counters), old(PinFound(q.session, q.start)), ordered,
                       pinned,
                       scheduler[q.model].counters)
      ensures Progress(turns, ordered, q, log, |old(log)|) && Replies(reply, turns, |ordered|, q.goneAfter)
      ensures !others.Reloads? ==> forall r :: r in routes[q.model] ==>
                r.pool.slots == old(r.pool.slots) && r.pool.hard == old(r.pool.hard)
      ensures !others.Reloads? ==> forall i :: 0 <= i < |turns| ==>
                SawPool(turns[i], ordered[i].pool.slots, ordered[i].pool.hard, ordered[i].upstream)
      ensures others.Nobody? ==> log == old(log) + MarksOf(turns, q.model)
      ensures held != null <==> q.streaming && reply.Answered?
      ensures held != null ==> HeldBy(held, turns)
    {
      hide Accounted, Ready, Progress, Replies, MarksOf, SawPool, Arranged, SlotsOf;
      ordered, pinned := TryOrder(q.model, q.session, q.start, others, known);
      reply, turns, held := TryAll(ordered, q, others, known);
    }

    /** The turns of all routes, in the order given. */
    method TryAll(ordered: seq<Route>, q: Query, others: Meanwhile, known: set<string>)
      returns (reply: Reply, ghost turns: seq<Turn>, held: Slot?)
      requires Accounted() && q.model in routes && Ready(q.model, known) && forall r :: r in ordered ==>
                 r in routes[q.model]
      modifies this`cooldown, this`log, affinity, PoolsOf(routes[q.model]), SlotsOf(routes[q.model])
      ensures Accounted() && old(log) <= log && Ready(q.model, known)
      ensures Progress(turns, ordered, q, log, |old(log)|) && Replies(reply, turns, |ordered|, q.goneAfter)
      ensures !others.Reloads? ==> forall r :: r in routes[q.model] ==>
                r.pool.slots == old(r.pool.slots) && r.pool.hard == old(r.pool.hard)
      ensures !others.Reloads? ==> forall i :: 0 <= i < |turns| ==>
                SawPool(turns[i], ordered[i].pool.slots, ordered[i].pool.hard, ordered[i].upstream)
      ensures others.Nobody? ==> log == old(log) + MarksOf(turns, q.model)
      ensures held != null <==> q.streaming && reply.Answered?
      ensures held != null ==> HeldBy(held, turns)
    {
      hide Accounted, Ready, Progress, Ruled, OnRecord, Replies, SlotsOf, PoolsOf, OpenSet, AllWentOn, Names, MarksOf,
           SawPool, AnyVisited;
      turns, held := [], null;
      var failed := false;
      NoTurns(ordered, q, log);
      for i := 0 to |ordered|
        invariant Accounted() && old(log) <= log && Ready(q.model, known)
        invariant fresh(SlotsOf(routes[q.model]) - old(SlotsOf(routes[q.model])))
        invariant !others.Reloads? ==> forall r :: r in routes[q.model] ==>
                    r.pool.slots == old(r.pool.slots) && r.pool.hard == old(r.pool.hard)
        invariant |turns| == i && Progress(turns, ordered, q, log, |old(log)|) && AllWentOn(turns)
        invariant failed <==> AnyVisited(turns)
        invariant !others.Reloads? ==> forall j :: 0 <= j < |turns| ==>
                    SawPool(turns[j], ordered[j].pool.slots, ordered[j].pool.hard, ordered[j].upstream)
        invariant others.Nobody? ==> log == old(log) + MarksOf(turns, q.model)
        invariant held == null
      {
        ghost var before, mid := log, SlotsOf(routes[q.model]);
        label Before:
        var visited, turn, lease := TakeTurn(ordered[i], i, q, others, known);
        forall s | s in SlotsOf(routes[q.model]) && s !in old(SlotsOf(routes[q.model])) ensures fresh(s) {
          assert s in mid ==> s in mid - old(SlotsOf(routes[q.model]));
          assert s !in mid ==> fresh@Before(s);
        }
        NextTurn(turns, turn, ordered, q, before, log, |old(log)|);
        AnyGrows(turns, turn);
        MarksGrow(old(log), turns, turn, q.model);
        if visited.Some? {
          LastTurn(turns, turn, |ordered|, q.goneAfter);
        }
        turns := turns + [turn];
        if visited.Some? {
          var visit := visited.value;
          if visit.answer.Done? {
            return Answered(visit.answer.response), turns, lease;
          }
          if visit.gone || visit.answer.Aborted? {
            return Gone, turns, null;
          }
          if visit.answer.Rejected? {
            return Refused, turns, null;
          }
          failed := true;
          if q.goneAfter(i) {
            return Gone, turns, null;
          }
        }
      }
      reply := if failed then LastError else NoRoute;
      GivesUpAfter(turns, q.goneAfter);
    }

    /** Everything a request for the model may change besides the cooldowns. */
    ghost function Footprint(model: string): set<object>
      reads this, if model in routes then PoolsOf(routes[model]) else {}
    {
      if model in routes && model in scheduler
      then {scheduler[model]} + PoolsOf(routes[model]) + SlotsOf(routes[model])
        + (if affinity == null then {} else {affinity})
      else {}
    }

    /** A request for any model: one the router does not know is refused without touching anything. */
    method Handle(q: Query, others: Meanwhile, known: set<string>)
      returns (reply: Reply, ordered: seq<Route>, ghost turns: seq<Turn>, held: Slot?, ghost pinned: Option<string>)
      requires Valid() && Accounted() && (q.model in routes ==> Ready(q.model, known))
      modifies this`cooldown, this`log, Footprint(q.model)
      ensures Accounted() && old(log) <= log
      ensures q.model !in routes ==> reply == NoRoute && ordered == [] && log == old(log)
      ensures q.model in routes ==> multiset(ordered) == multiset(routes[q.model])
      ensures q.model in routes && q.model in scheduler ==>
                Arranged(q.model, others, old(scheduler[q.model].counters), old(PinFound(q.session, q.start)), ordered,
                         pinned, scheduler[q.model].counters)
      ensures Progress(turns, ordered, q, log, |old(log)|) && Replies(reply, turns, |ordered|, q.goneAfter)
      ensures others.Nobody? ==> log == old(log) + MarksOf(turns, q.model)
      ensures held != null <==> q.streaming && reply.Answered?
      ensures held != null ==> HeldBy(held, turns)
    {
      hide *;
      if q.model !in routes {
        NoTurns([], q, log);
        NothingTried(q.goneAfter);
        return NoRoute, [], [], null, None;
      }
      KnownModel(q.model);
      reply, ordered, turns, held, pinned := Serve(q, others, known);
    }

    lemma KnownModel(model: string)
      requires Valid() && model in routes
      ensures model in scheduler
      ensures Footprint(model) == {scheduler[model]} + PoolsOf(routes[model]) + SlotsOf(routes[model])
                + (if affinity == null then {} else {affinity})
    {
    }

    method TryOrder(model: string, session: string, now: real, others: Meanwhile, ghost known: set<string>)
      returns (ordered: seq<Route>, ghost pinned: Option<string>)
      requires Valid() && model in routes && Ready(model, known)
      modifies scheduler[model], affinity
      ensures unchanged(this)
      ensures Ready(model, known) && multiset(ordered) == multiset(routes[model])
      ensures forall r :: r in routes[model] ==> r.pool.slots == old(r.pool.slots) && r.pool.hard == old(r.pool.hard)
      ensures SlotsOf(routes[model]) == old(SlotsOf(routes[model]))
      ensures forall i :: 0 <= i < |ordered| ==> ordered[i] in routes[model]
      ensures Arranged(model, others, old(scheduler[model].counters), old(PinFound(session, now)), ordered, pinned,
                       scheduler[model].counters)
    {
      hide PoolCore.Inv, Affinities.Inv, Ready, WellOrdered, TryingOrder, Routes.Order;
      ghost var before := scheduler[model].counters;
      ordered, pinned := Ordered(model, session, now, others, known);
      OrderIsWell(routes[model], scheduler[model].policies, before, pinned);
      SameRoutes(routes[model], scheduler[model].policies, pinned, ordered);
    }

    /**
     How a request's routes are arranged: by one draw of the scheduler and the pin it finds. Undisturbed, the pin
     is the one at entry and the counters move by exactly that draw.
     */
    ghost predicate Arranged(model: string, others: Meanwhile, before: Routes.Counters, entry: Option<string>,
                             ordered: seq<Route>, pinned: Option<string>, after: Routes.Counters)
      requires model in routes && model in scheduler
    {
      var policies := scheduler[model].policies;
      && ordered == TryingOrder(routes[model], policies, before, pinned)
      && WellOrdered(routes[model], policies, pinned, ordered)
      && (others.Nobody? ==> pinned == entry && Drew(routes[model], policies, Draw(before, pinned, ordered, after)))
    }
  }

  function AfterForgetProvider(v: View, session: string, provider: string, now: real): View {
    var pinned := Hit(v, session, now);
    if pinned.Some? && ProviderOf(pinned.value) == provider then v.(entries := v.entries - {session}) else v
  }

  // ---- a stream handed to the caller ----

  class RoutedStream {
    const router: Router
    const model: string
    const provider: string
    const inner: PoolStream
    var closed: bool

    constructor (router: Router, model: string, provider: string, inner: PoolStream)
      ensures this.router == router && this.model == model && this.provider == provider && this.inner == inner
                && !closed
    {
      this.router, this.model, this.provider, this.inner, closed := router, model, provider, inner, false;
    }

    /**
     Unlike a failover, this cools the route after a single account: exactly when that account broke
     before its first frame and the caller had not gone. A failure after a frame leaves the route alone.
     */
    method Next(pulled: Pulled, clientAbort: bool, now: real) returns (out: Delivered)
      requires router.Accounted()
      modifies router`cooldown, router`log, inner, inner.handle
      ensures router.Accounted() && old(router.log) <= router.log
      ensures inner.committed == (old(inner.committed) || pulled.Frame?)
      ensures inner.released == (old(inner.released) || !pulled.Frame?)
      ensures pulled.Frame? ==> out == Sent(pulled.data)
      ensures router.cooldown ==
                if pulled.Broken? && !old(inner.committed) && !clientAbort
                then old(router.cooldown)[(model, provider) := now + PoolCore.COOLDOWN] else old(router.cooldown)
    {
      out := inner.Next(pulled);
      if out.BeforeFirst? && !clientAbort {
        router.MarkFailed(model, provider, now, Mark(model, ByStream(provider, inner.committed, clientAbort, now)));
      }
    }

    /** Closing twice closes the inner stream once, and its lease goes back either way. */
    method Close()
      modifies this`closed, inner`released, inner.handle
      ensures closed
      ensures old(closed) ==>
                inner.released == old(inner.released) && inner.handle.inFlight == old(inner.handle.inFlight)
      ensures !old(closed) ==> inner.released
    {
      if closed {
        return;
      }
      closed := true;
      inner.Close();
    }
  }
}
