/** Slot leases over every interleaving of requests, streams, failure reports and hot reloads. */
module Leases {
  import opened Chunks
  import opened Sorting
  import opened PoolCore
  import opened Pools

  // ---- a stream that holds a lease ----

  datatype Pulled = Frame(data: string) | End | Broken

  datatype Delivered = Sent(data: string) | Eof | BeforeFirst | AfterFirst

  class PoolStream {
    const pool: Pool
    const handle: Pools.Slot
    var released: bool
    var committed: bool

    constructor (pool: Pool, handle: Pools.Slot)
      ensures this.pool == pool && this.handle == handle && !released && !committed
    {
      this.pool, this.handle, released, committed := pool, handle, false, false;
    }

    /** The lease is handed back the first time the stream ends, and only then. */
    method Finish()
      modifies this`released, handle
      ensures released
      ensures handle.inFlight == if !old(released)
                && old(handle.inFlight) > 0 then old(handle.inFlight) - 1 else old(handle.inFlight)
    {
      if released {
        return;
      }
      released := true;
      pool.Release(handle);
    }

    /** A failure counts as one before the first frame exactly when no frame was ever delivered. */
    method Next(pulled: Pulled) returns (out: Delivered)
      modifies this, handle
      ensures committed == (old(committed) || pulled.Frame?) && released == (old(released) || !pulled.Frame?)
      ensures handle.inFlight == if !pulled.Frame? && !old(released)
                && old(handle.inFlight) > 0 then old(handle.inFlight) - 1 else old(handle.inFlight)
      ensures out == match pulled
                     case Frame(data) => Sent(data)
                     case End => Eof
                     case Broken => if old(committed) then AfterFirst else BeforeFirst
    {
      if !pulled.Frame? {
        Finish();
        return if pulled.End? then Eof else if !committed then BeforeFirst else AfterFirst;
      }
      if !committed {
        committed := true;
      }
      return Sent(pulled.data);
    }

    method Close()
      modifies this`released, handle
      ensures released
      ensures handle.inFlight == if !old(released)
                && old(handle.inFlight) > 0 then old(handle.inFlight) - 1 else old(handle.inFlight)
    {
      Finish();
    }
  }

  // ---- the interleaved system ----

  /** Where a lease stands: in an upstream call, behind an open stream, or handed back. */
  datatype Phase = Calling | Streaming(committed: bool) | Over

  datatype Lease = Lease(key: string, provider: int, generation: nat, phase: Phase)

  predicate Holds(l: Lease, generation: nat) {
    l.generation == generation && !l.phase.Over?
  }

  /** How many leases on a slot are not handed back yet. */
  function Outstanding(leases: seq<Lease>, generation: nat): nat {
    if leases == [] then 0
    else Outstanding(leases[..|leases| - 1], generation) + if Holds(leases[|leases| - 1], generation) then 1 else 0
  }

  /** `flights` is the slots' own count; `returned` logs the decrements, `closed` the retired credentials. */
  datatype Sys = Sys(core: Core, flights: map<nat, nat>, leases: seq<Lease>, returned: seq<nat>,
                     closed: multiset<Ident>)

  function Flight(s: Sys, generation: nat): nat {
    if generation in s.flights then s.flights[generation] else 0
  }

  function KeyFlights(s: Sys): map<string, nat> {
    map k | k in s.core.live :: Flight(s, s.core.live[k].generation)
  }

  datatype Event =
    | Take(pin: Option<string>, tried: set<string>, model: string, now: real, advance: bool)
    | GiveBack(id: nat)
    | Open(id: nat)
    | Pull(id: nat, broke: bool)
    | Shut(id: nat)
    | Report(id: nat, model: string, reset: Option<real>, now: real)
    | Reload(next: map<string, int>)
    | Choose(strategy: Strategy)
    | Weigh(weights: map<string, int>)
    | Exclude(blocks: set<Block>)

  /** Hand a lease back: the slot's count goes down unless it is already zero. */
  function HandBack(s: Sys, id: nat): Sys
    requires id < |s.leases|
  {
    var g := s.leases[id].generation;
    var over := s.leases[id := s.leases[id].(phase := Over)];
    if Flight(s, g) > 0 then s.(leases := over, flights := s.flights[g := Flight(s, g) - 1],
                                returned := s.returned + [id])
    else s.(leases := over)
  }

  /** The dropped slots that are idle. */
  function Retired(s: Sys, next: map<string, int>): set<Ident> {
    set k | k in s.core.live && !Stays(s.core, next, k) && Flight(s, s.core.live[k].generation) == 0 :: s.core.live[k]
  }

  ghost predicate Took(s: Sys, e: Event, t: Sys)
    requires e.Take?
  {
    Inv(s.core) &&
    var (key, after) := Acquire(s.core, e.pin, e.tried, e.model, e.now, KeyFlights(s), e.advance);
    if key.None? then t == s.(core := after)
    else
      && key.value in s.core.live
      && var slot := s.core.live[key.value];
         t == s.(core := after, flights := s.flights[slot.generation := Flight(s, slot.generation) + 1],
                 leases := s.leases + [Lease(key.value, slot.provider, slot.generation, Calling)])
  }

  /** One critical section. `Took` asks for the pool invariant, which every reachable state has. */
  ghost predicate Step(s: Sys, e: Event, t: Sys) {
    match e
    case Take(_, _, _, _, _) => Took(s, e, t)
    case GiveBack(id) => id < |s.leases| && s.leases[id].phase.Calling? && t == HandBack(s, id)
    case Open(id) => id < |s.leases| && s.leases[id].phase.Calling?
      && t == s.(leases := s.leases[id := s.leases[id].(phase := Streaming(false))])
    case Pull(id, broke) =>
      && id < |s.leases| && !s.leases[id].phase.Calling?
      && t == if s.leases[id].phase.Over? then s
              else if broke then HandBack(s, id)
              else s.(leases := s.leases[id := s.leases[id].(phase := Streaming(true))])
    case Shut(id) =>
      && id < |s.leases| && !s.leases[id].phase.Calling?
      && t == if s.leases[id].phase.Over? then s else HandBack(s, id)
    case Report(id, model, reset, now) =>
      && id < |s.leases|
      && t == s.(core := AfterFailure(s.core, s.leases[id].key, s.leases[id].generation, model, reset, now))
    case Reload(next) =>
      && Updated(s.core, next, t.core)
      && t == s.(core := t.core, closed := s.closed + multiset(Retired(s, next)))
    case Choose(strategy) => t == s.(core := s.core.(strategy := strategy, swrr := if strategy != s.core.strategy
                                                     then map[] else s.core.swrr))
    case Weigh(weights) => t == s.(core := s.core.(weights := PositiveOnly(weights)))
    case Exclude(blocks) => t == s.(core := s.core.(hard := blocks))
  }

  /** Every slot's count is its outstanding leases. */
  ghost predicate Counted(s: Sys) {
    forall g: nat :: Flight(s, g) == Outstanding(s.leases, g)
  }

  /** A lease names a slot that was really installed, and the live slot of that generation if there is one. */
  ghost predicate Named(s: Sys) {
    forall i :: 0 <= i < |s.leases| ==>
      && 0 < s.leases[i].generation <= s.core.generation
      && forall k :: k in s.core.live && s.core.live[k].generation == s.leases[i].generation ==>
           s.core.live[k].provider == s.leases[i].provider && k == s.leases[i].key
  }

  /** Each lease that is over was handed back exactly once. */
  ghost predicate HandedBack(s: Sys) {
    Distinct(s.returned) && forall id: nat :: id in s.returned <==> id < |s.leases| && s.leases[id].phase.Over?
  }

  /** Each closed slot was closed once, is out of the pool, and has no lease. */
  ghost predicate ClosedIdle(s: Sys) {
    forall i :: i in s.closed ==>
      && s.closed[i] == 1 && i.generation <= s.core.generation
      && Outstanding(s.leases, i.generation) == 0
      && forall k :: k in s.core.live ==> s.core.live[k].generation != i.generation
  }

  ghost predicate Safe(s: Sys) {
    Inv(s.core) && Counted(s) && Named(s) && HandedBack(s) && ClosedIdle(s)
  }

  function Fresh(): Sys {
    Sys(Core(map[], [], 0, map[], map[], {}, 0, RoundRobin, map[], map[]), map[], [], [], multiset{})
  }

  ghost predicate Run(states: seq<Sys>, events: seq<Event>) {
    && |states| == |events| + 1 && states[0] == Fresh()
    && forall i :: 0 <= i < |events| ==> Step(states[i], events[i], states[i + 1])
  }

  lemma {:induction false} EveryRunIsSafe(states: seq<Sys>, events: seq<Event>, n: nat)
    requires Run(states, events) && n <= |events|
    ensures Safe(states[n])
  {
    hide Safe, Step;
    if n > 0 {
      EveryRunIsSafe(states, events, n - 1);
      StepIsSafe(states[n - 1], events[n - 1], states[n]);
    } else {
      FreshIsSafe();
    }
  }

  lemma FreshIsSafe()
    ensures Safe(Fresh())
  {
  }

  lemma {:induction false} OutstandingSet(leases: seq<Lease>, id: nat, l: Lease, g: nat)
    requires id < |leases|
    ensures Outstanding(leases[id := l], g) + (if Holds(leases[id], g) then 1 else 0)
         == Outstanding(leases, g) + (if Holds(l, g) then 1 else 0)
  {
    var front := leases[..|leases| - 1];
    if id < |front| {
      OutstandingSet(front, id, l, g);
      assert leases[id := l][..|leases| - 1] == front[id := l];
    } else {
      assert leases[id := l][..|leases| - 1] == front;
    }
  }

  lemma {:induction false} OutstandingSome(leases: seq<Lease>, g: nat)
    ensures Outstanding(leases, g) > 0 <==> exists i :: 0 <= i < |leases| && Holds(leases[i], g)
  {
    if leases != [] {
      var front := leases[..|leases| - 1];
      OutstandingSome(front, g);
      if Outstanding(front, g) > 0 {
        var i :| 0 <= i < |front| && Holds(front[i], g);
        assert Holds(leases[i], g);
      }
      if exists i :: 0 <= i < |leases| && Holds(leases[i], g) {
        var i :| 0 <= i < |leases| && Holds(leases[i], g);
        assert i < |front| ==> Holds(front[i], g);
      }
    }
  }

  lemma OnePhase(s: Sys, id: nat, l: Lease)
    requires Named(s) && id < |s.leases| && l == s.leases[id].(phase := l.phase)
    ensures forall u: Sys :: u.leases == s.leases[id := l] && u.core == s.core ==> Named(u)
  {
  }

  lemma OverAt(leases: seq<Lease>, id: nat, l: Lease)
    requires id < |leases|
    ensures forall j: nat :: j < |leases| ==>
              (leases[id := l][j].phase.Over? <==> if j == id then l.phase.Over? else leases[j].phase.Over?)
  {
  }

  lemma PhaseIsSafe(s: Sys, id: nat, phase: Phase)
    requires Safe(s) && id < |s.leases| && !s.leases[id].phase.Over? && !phase.Over?
    ensures Safe(s.(leases := s.leases[id := s.leases[id].(phase := phase)]))
  {
    var l := s.leases[id].(phase := phase);
    forall g: nat ensures Outstanding(s.leases[id := l], g) == Outstanding(s.leases, g) {
      OutstandingSet(s.leases, id, l, g);
    }
    OnePhase(s, id, l);
    hide Inv, Named, Outstanding;
    OverAt(s.leases, id, l);
    var t := s.(leases := s.leases[id := l]);
    assert forall j: nat :: j in t.returned <==> j < |t.leases| && t.leases[j].phase.Over?;
    forall g: nat ensures Flight(t, g) == Outstanding(t.leases, g) {
      assert Flight(s, g) == Outstanding(s.leases, g);
    }
  }

  /** The count is never zero when a lease comes back, so no return is lost. */
  lemma HandBackIsSafe(s: Sys, id: nat)
    requires Safe(s) && id < |s.leases| && !s.leases[id].phase.Over?
    ensures Flight(s, s.leases[id].generation) > 0
    ensures Safe(HandBack(s, id))
  {
    var g, l := s.leases[id].generation, s.leases[id].(phase := Over);
    assert Holds(s.leases[id], g);
    OutstandingSome(s.leases, g);
    forall h: nat ensures Outstanding(s.leases[id := l], h) == Outstanding(s.leases, h) - if h == g then 1 else 0 {
      OutstandingSet(s.leases, id, l, h);
    }
    OnePhase(s, id, l);
    var t := HandBack(s, id);
    assert Flight(s, g) > 0 && t == s.(leases := s.leases[id := l], flights := s.flights[g := Flight(s, g) - 1],
                                       returned := s.returned + [id]);
    hide Inv, Named, Outstanding, HandBack;
    assert id !in s.returned;
    OverAt(s.leases, id, l);
    forall j: nat ensures j in t.returned <==> j < |t.leases| && t.leases[j].phase.Over? {
      assert j in t.returned <==> j in s.returned || j == id;
    }
    forall h: nat ensures Flight(t, h) == Outstanding(t.leases, h) {
      assert Flight(s, h) == Outstanding(s.leases, h);
    }
    assert ClosedIdle(t) by {
      forall i | i in t.closed ensures Outstanding(t.leases, i.generation) == 0 {
        assert Outstanding(s.leases[id := l], i.generation) == Outstanding(s.leases, i.generation);
      }
    }
  }

  lemma TakeIsSafe(s: Sys, e: Event, t: Sys)
    requires Safe(s) && e.Take? && Took(s, e, t)
    ensures Safe(t)
  {
    var (key, after) := Acquire(s.core, e.pin, e.tried, e.model, e.now, KeyFlights(s), e.advance);
    AcquireKeepsInv(s.core, e.pin, e.tried, e.model, e.now, KeyFlights(s), e.advance);
    hide Acquire;
    if key.Some? {
      var slot := s.core.live[key.value];
      LeaseIsSafe(s, key.value, t);
    } else {
      CoreIsSafe(s, after);
    }
  }

  /** Bookkeeping that leaves the live slots alone leaves the leases alone. */
  lemma CoreIsSafe(s: Sys, c: Core)
    requires Safe(s) && Inv(c) && c.live == s.core.live && c.generation == s.core.generation
    ensures Safe(s.(core := c))
  {
    hide Inv, Outstanding;
  }

  lemma LeaseIsSafe(s: Sys, key: string, t: Sys)
    requires Safe(s) && key in s.core.live && Inv(t.core) && t.core.live == s.core.live
               && t.core.generation == s.core.generation
    requires var slot := s.core.live[key];
             t == s.(core := t.core, flights := s.flights[slot.generation := Flight(s, slot.generation) + 1],
                     leases := s.leases + [Lease(key, slot.provider, slot.generation, Calling)])
    ensures Safe(t)
  {
    assert t.leases[..|t.leases| - 1] == s.leases;
    assert Issued(s.core.live, s.core.generation);
    hide Inv;
    forall g: nat ensures Outstanding(t.leases, g) == Outstanding(s.leases, g) + if g == s.core.live[key].generation
      then 1 else 0 {
    }
    hide Outstanding;
  }

  lemma ReportIsSafe(s: Sys, l: Lease, model: string, reset: Option<real>, now: real)
    requires Safe(s)
    ensures Safe(s.(core := AfterFailure(s.core, l.key, l.generation, model, reset, now)))
  {
    MarksKeepInv(s.core, l.key, model, l.generation, if reset.Some? then reset.value else 0.0, now);
    hide Inv;
    CoreIsSafe(s, AfterFailure(s.core, l.key, l.generation, model, reset, now));
  }

  lemma SettingsAreSafe(s: Sys, c: Core)
    requires Safe(s) && (c.weights == s.core.weights || forall k :: k in c.weights ==> c.weights[k] > 0)
               && c.swrr.Keys <= s.core.swrr.Keys
    requires c == s.core.(strategy := c.strategy, swrr := c.swrr, weights := c.weights, hard := c.hard)
    ensures Safe(s.(core := c))
  {
    InvAgain(s.core, c) by { assert Inv(s.core); }
    hide Inv;
    CoreIsSafe(s, c);
  }

  lemma ReloadIsSafe(s: Sys, next: map<string, int>, t: Sys)
    requires Safe(s) && Updated(s.core, next, t.core)
    requires t == s.(core := t.core, closed := s.closed + multiset(Retired(s, next)))
    ensures Safe(t)
  {
    UpdateKeepsInv(s.core, next, t.core);
    assert Numbered(s.core, next, t.core.live, next.Keys, t.core.generation);
    hide Inv, Updated, Numbered, Outstanding, Named, ClosedIdle;
    NamesSurvive(s, next, t);
    ClosedSurvive(s, next, t);
  }

  /** A slot number handed out earlier still stands for the same slot, or for none. */
  lemma NamesSurvive(s: Sys, next: map<string, int>, t: Sys)
    requires Named(s) && Numbered(s.core, next, t.core.live, next.Keys, t.core.generation) && t.leases == s.leases
    ensures Named(t)
  {
    forall i, k | 0 <= i < |t.leases| && k in t.core.live && t.core.live[k].generation == t.leases[i].generation
      ensures t.core.live[k].provider == t.leases[i].provider && k == t.leases[i].key
    {
      assert Stays(s.core, next, k) && t.core.live[k] == s.core.live[k];
    }
  }

  lemma ClosedSurvive(s: Sys, next: map<string, int>, t: Sys)
    requires Safe(s) && Numbered(s.core, next, t.core.live, next.Keys, t.core.generation)
    requires t == s.(core := t.core, closed := s.closed + multiset(Retired(s, next)))
    ensures ClosedIdle(t)
  {
    hide Inv, Outstanding;
    forall i | i in t.closed
      ensures t.closed[i] == 1 && i.generation <= t.core.generation && Outstanding(t.leases, i.generation) == 0
      ensures forall k :: k in t.core.live ==> t.core.live[k].generation != i.generation
    {
      assert i in s.closed || i in Retired(s, next);
      if i in Retired(s, next) {
        RetiredOnce(s, next, i);
      }
    }
  }

  /** What a reload closes was open, idle, and leaves the pool. */
  lemma RetiredOnce(s: Sys, next: map<string, int>, i: Ident)
    requires Safe(s) && i in Retired(s, next)
    ensures i !in s.closed && i.generation <= s.core.generation && Outstanding(s.leases, i.generation) == 0
    ensures forall k :: k in s.core.live && s.core.live[k].generation == i.generation ==> !Stays(s.core, next, k)
  {
    assert Issued(s.core.live, s.core.generation);
    hide Inv, Outstanding;
    var k :| k in s.core.live && !Stays(s.core, next, k) && s.core.live[k] == i;
    assert Flight(s, i.generation) == Outstanding(s.leases, i.generation);
  }

  lemma StepIsSafe(s: Sys, e: Event, t: Sys)
    requires Safe(s) && Step(s, e, t)
    ensures Safe(t)
  {
    hide Inv, Acquire, Updated, HandBack, AfterFailure;
    match e
    case Take(_, _, _, _, _) => TakeIsSafe(s, e, t);
    case GiveBack(id) => HandBackIsSafe(s, id);
    case Open(id) => PhaseIsSafe(s, id, Streaming(false));
    case Pull(id, broke) =>
      if !s.leases[id].phase.Over? {
        if broke {
          HandBackIsSafe(s, id);
        } else {
          PhaseIsSafe(s, id, Streaming(true));
        }
      }
    case Shut(id) =>
      if !s.leases[id].phase.Over? {
        HandBackIsSafe(s, id);
      }
    case Report(id, model, reset, now) => ReportIsSafe(s, s.leases[id], model, reset, now);
    case Reload(next) => ReloadIsSafe(s, next, t);
    case Choose(strategy) => SettingsAreSafe(s, t.core);
    case Weigh(weights) => SettingsAreSafe(s, t.core);
    case Exclude(blocks) => SettingsAreSafe(s, t.core);
  }

  // ---- what safety means for a request ----

  /** A credential whose slot still serves somebody is never closed, now or by the next reload. */
  lemma LeasedIsOpen(s: Sys, id: nat, next: map<string, int>)
    requires Safe(s) && id < |s.leases| && !s.leases[id].phase.Over?
    ensures forall i :: i in s.closed || i in Retired(s, next) ==> i.generation != s.leases[id].generation
  {
    var g := s.leases[id].generation;
    assert Holds(s.leases[id], g);
    OutstandingSome(s.leases, g);
    assert Flight(s, g) == Outstanding(s.leases, g);
  }

  /** Out of the pool and not closed. */
  ghost predicate Abandoned(s: Sys, generation: nat) {
    && generation <= s.core.generation && (forall k :: k in s.core.live ==> s.core.live[k].generation != generation)
    && forall i :: i in s.closed ==> i.generation != generation
  }

  /** A slot once abandoned is closed by nobody: handing its last lease back does not do it either. */
  lemma {:induction false} AbandonedForEver(states: seq<Sys>, events: seq<Event>, m: nat, n: nat, generation: nat)
    requires Run(states, events) && m <= n <= |events| && Abandoned(states[m], generation)
    ensures Abandoned(states[n], generation)
  {
    hide Safe, Step, Abandoned;
    if m < n {
      AbandonedForEver(states, events, m, n - 1, generation);
      EveryRunIsSafe(states, events, n - 1);
      StaysAbandoned(states[n - 1], events[n - 1], states[n], generation);
    }
  }

  ghost predicate IsClosed(s: Sys, generation: nat) {
    exists i :: i in s.closed && i.generation == generation
  }

  /** What a reload does with a slot it drops. */
  lemma DropDecides(s: Sys, next: map<string, int>, t: Sys, key: string)
    requires Safe(s) && Step(s, Reload(next), t) && key in s.core.live && !Stays(s.core, next, key)
    ensures var g := s.core.live[key].generation;
            if Flight(s, g) == 0 then IsClosed(t, g) else Abandoned(t, g)
  {
    var i := s.core.live[key];
    assert Numbered(s.core, next, t.core.live, next.Keys, t.core.generation);
    assert Issued(s.core.live, s.core.generation);
    hide Updated, Inv;
    if Flight(s, i.generation) == 0 {
      assert i in Retired(s, next);
      assert i in t.closed;
    } else {
      forall j | j in t.closed ensures j.generation != i.generation {
        assert j in s.closed || j in Retired(s, next);
      }
      forall k | k in t.core.live ensures t.core.live[k].generation != i.generation {
        if Stays(s.core, next, k) {
          assert t.core.live[k] == s.core.live[k] && k != key;
        } else {
          assert t.core.live[k].generation > s.core.generation;
        }
      }
    }
  }

  lemma {:induction false} ClosedForEver(states: seq<Sys>, events: seq<Event>, m: nat, n: nat, generation: nat)
    requires Run(states, events) && m <= n <= |events| && IsClosed(states[m], generation)
    ensures IsClosed(states[n], generation)
  {
    if m < n {
      ClosedForEver(states, events, m, n - 1, generation);
      var i :| i in states[n - 1].closed && i.generation == generation;
      assert Step(states[n - 1], events[n - 1], states[n]);
      assert i in states[n].closed;
    }
  }

  /**
   Whether a dropped slot is ever closed is decided at the reload that drops it: it is closed, then and
   for good, exactly when it was idle there. One dropped while busy is never closed by anyone.
   */
  lemma DroppedIsClosedIffIdle(states: seq<Sys>, events: seq<Event>, m: nat, n: nat, key: string)
    requires Run(states, events) && m < n <= |events| && events[m].Reload?
    requires key in states[m].core.live && !Stays(states[m].core, events[m].next, key)
    ensures var g := states[m].core.live[key].generation;
            IsClosed(states[n], g) <==> Flight(states[m], g) == 0
  {
    EveryRunIsSafe(states, events, m);
    assert Step(states[m], events[m], states[m + 1]);
    var g := states[m].core.live[key].generation;
    hide Step, Safe;
    DropDecides(states[m], events[m].next, states[m + 1], key);
    if Flight(states[m], g) == 0 {
      ClosedForEver(states, events, m + 1, n, g);
    } else {
      AbandonedForEver(states, events, m + 1, n, g);
    }
  }

  // A run with such a slot: it is loaded, leased, dropped, and handed back.

  function Loaded(): Sys {
    Sys(Core(map["a" := Ident(7, 1)], ["a"], 0, map[], map[], {}, 1, RoundRobin, map[], map[]), map[], [], [],
        multiset{})
  }

  function Leased(): Sys {
    Loaded().(flights := map[1 := 1], leases := [Lease("a", 7, 1, Calling)])
  }

  function Dropped(): Sys {
    Leased().(core := Core(map[], [], 0, map[], map[], {}, 1, RoundRobin, map[], map[]))
  }

  /** Every lease of the slot is over, no credential is loaded, and still nothing was ever closed. */
  lemma BusySlotIsNeverClosed()
    ensures Run([Fresh(), Loaded(), Leased(), Dropped(), HandBack(Dropped(), 0)],
                [Reload(map["a" := 7]), Take(None, {}, "m", 0.0, false), Reload(map[]), GiveBack(0)])
    ensures var last := HandBack(Dropped(), 0);
            && last.leases == [Lease("a", 7, 1, Over)] && Flight(last, 1) == 0 && last.core.live == map[]
            && last.closed == multiset{}
  {
    LoadedIsSafe();
    LeasedNext();
    DroppedNext();
    BackLast();
    hide *;
    FourSteps(Loaded(), Leased(), Dropped(), HandBack(Dropped(), 0),
              Reload(map["a" := 7]), Take(None, {}, "m", 0.0, false), Reload(map[]), GiveBack(0));
  }

  lemma FourSteps(t: Sys, u: Sys, v: Sys, w: Sys, a: Event, b: Event, c: Event, d: Event)
    requires Step(Fresh(), a, t) && Step(t, b, u) && Step(u, c, v) && Step(v, d, w)
    ensures Run([Fresh(), t, u, v, w], [a, b, c, d])
  {
    hide Step;
    var states, events := [Fresh(), t, u, v, w], [a, b, c, d];
    forall i | 0 <= i < |events| ensures Step(states[i], events[i], states[i + 1]) {
      assert i == 0 || i == 1 || i == 2 || i == 3;
    }
  }

  lemma LoadedIsSafe()
    ensures Step(Fresh(), Reload(map["a" := 7]), Loaded()) && Inv(Loaded().core)
  {
    LoadedFirst();
    FreshIsSafe();
    hide Loaded;
    ReloadIsSafe(Fresh(), map["a" := 7], Loaded());
  }

  lemma BackLast()
    ensures var last := HandBack(Dropped(), 0);
            && Step(Dropped(), GiveBack(0), last)
            && last.leases == [Lease("a", 7, 1, Over)] && Flight(last, 1) == 0 && last.core.live == map[]
            && last.closed == multiset{}
  {
  }

  lemma LoadedFirst()
    ensures Step(Fresh(), Reload(map["a" := 7]), Loaded())
  {
    assert Retired(Fresh(), map["a" := 7]) == {};
  }

  lemma LeasedNext()
    requires Inv(Loaded().core)
    ensures Step(Loaded(), Take(None, {}, "m", 0.0, false), Leased())
  {
    var c, flights := Loaded().core, KeyFlights(Loaded());
    AcquireIsBest(c, None, {}, "m", 0.0, flights, false);
    RetryMovesNothing(c, None, {}, "m", 0.0, flights);
    hide Acquire, Inv;
    assert "a" in c.live && PoolCore.Open(c, "a", {}, "m");
  }

  lemma DroppedNext()
    ensures Step(Leased(), Reload(map[]), Dropped())
  {
    assert Retired(Leased(), map[]) == {};
  }

  lemma StaysAbandoned(s: Sys, e: Event, t: Sys, generation: nat)
    requires Safe(s) && Step(s, e, t) && Abandoned(s, generation)
    ensures Abandoned(t, generation)
  {
    hide Safe, Inv, Acquire;
    if e.Take? {
      AcquireKeepsInv(s.core, e.pin, e.tried, e.model, e.now, KeyFlights(s), e.advance) by { assert Inv(s.core); }
    }
  }

  /** An idle slot that the reload drops has that instance. */
  ghost predicate DropsIdle(s: Sys, next: map<string, int>, provider: int) {
    exists k :: k in s.core.live && !Stays(s.core, next, k) && Flight(s, s.core.live[k].generation) == 0
                && s.core.live[k].provider == provider
  }

  /** The step from `s` to `t` closes that instance. */
  ghost predicate Closes(s: Sys, t: Sys, provider: int) {
    exists i :: i in t.closed && i !in s.closed && i.provider == provider
  }

  lemma ClosesIff(s: Sys, next: map<string, int>, t: Sys, provider: int)
    requires Safe(s) && Step(s, Reload(next), t)
    ensures Closes(s, t, provider) <==> DropsIdle(s, next, provider)
  {
    hide Inv, Updated, Outstanding, Counted, Named, HandedBack, Stays, Flight;
    if DropsIdle(s, next, provider) {
      var k :| k in s.core.live && !Stays(s.core, next, k) && Flight(s, s.core.live[k].generation) == 0
               && s.core.live[k].provider == provider;
      assert s.core.live[k] in Retired(s, next) && s.core.live[k] !in s.closed;
    }
    if Closes(s, t, provider) {
      var i :| i in t.closed && i !in s.closed && i.provider == provider;
      assert i in Retired(s, next);
    }
  }

  /**
   A reload closes an instance under a lease exactly when some slot that it drops while idle shares its
   instance with that lease; such a slot is never the lease's own.
   */
  lemma ClosesLeasedInstanceIff(s: Sys, next: map<string, int>, t: Sys, id: nat)
    requires Safe(s) && Step(s, Reload(next), t) && id < |s.leases| && !s.leases[id].phase.Over?
    ensures Closes(s, t, s.leases[id].provider) <==> DropsIdle(s, next, s.leases[id].provider)
    ensures Flight(s, s.leases[id].generation) > 0
  {
    ClosesIff(s, next, t, s.leases[id].provider);
    assert Holds(s.leases[id], s.leases[id].generation);
    OutstandingSome(s.leases, s.leases[id].generation);
    assert Flight(s, s.leases[id].generation) == Outstanding(s.leases, s.leases[id].generation);
  }

  /**
   What a superseded credential's failure report does to the credential now under its key: without a
   reset instant or without a model nothing at all, and otherwise it blocks the model there, too.
   */
  lemma SupersededReport(s: Sys, id: nat, model: string, reset: Option<real>, now: real, t: Sys)
    requires Safe(s) && Step(s, Report(id, model, reset, now), t)
    requires s.leases[id].key in s.core.live ==> s.core.live[s.leases[id].key].generation != s.leases[id].generation
    ensures reset.None? || model == "" ==> t.core == s.core
    ensures reset.Some? && model != "" ==>
              t.core.failed == s.core.failed && BlockedUntil(t.core, s.leases[id].key, model)
                == now + Clamp(reset.value)
    ensures BlockedUntil(s.core, s.leases[id].key, model) < now + COOLDOWN ==>
              (t.core == s.core <==> reset.None? || model == "")
  {
    hide Inv, Safe;
  }

  /**
   Why reloads must bring new instances: give one that still serves a superseded slot a slot of its own
   again, drop that one while it idles, and the instance is closed under the stream.
   */
  lemma ReinstalledInstanceIsClosed(s: Sys, id: nat, k: string, t: Sys, u: Sys)
    requires Safe(s) && id < |s.leases| && !s.leases[id].phase.Over?
    requires !Stays(s.core, map[k := s.leases[id].provider], k)
    requires Step(s, Reload(map[k := s.leases[id].provider]), t) && Step(t, Reload(map[]), u)
    ensures u.leases == s.leases && exists i :: i in u.closed && i !in s.closed && i.provider == s.leases[id].provider
  {
    var next := map[k := s.leases[id].provider];
    assert Numbered(s.core, next, t.core.live, next.Keys, t.core.generation);
    var i := t.core.live[k];
    assert i.generation > s.core.generation;
    NeverLeased(s, i.generation);
    assert Flight(s, i.generation) == Outstanding(s.leases, i.generation);
    assert i in Retired(t, map[]);
  }

  lemma NeverLeased(s: Sys, generation: nat)
    requires Named(s) && generation > s.core.generation
    ensures Outstanding(s.leases, generation) == 0
  {
    OutstandingSome(s.leases, generation);
  }

  // ---- when every reload brings new instances, instances are safe too ----

  /** The provider instances any reload so far has brought. */
  function Seen(events: seq<Event>): set<int> {
    if events == [] then {}
    else
      var last := events[|events| - 1];
      Seen(events[..|events| - 1]) + if last.Reload? then last.next.Values else {}
  }

  /** A reload that repeats no instance, but for those whose slots it keeps. */
  ghost predicate BringsNew(s: Sys, next: map<string, int>, seen: set<int>) {
    && (forall k, l :: k in next && l in next && next[k] == next[l] ==> k == l)
    && forall k :: k in next && next[k] in seen ==> Stays(s.core, next, k)
  }

  /** Live slots and closed credentials never share an instance. */
  ghost predicate OwnLive(live: map<string, Ident>, closed: multiset<Ident>, seen: set<int>) {
    && (forall k :: k in live ==> live[k].provider in seen)
    && (forall i :: i in closed ==> i.provider in seen)
    && (forall k, l :: k in live && l in live && live[k].provider == live[l].provider ==> k == l)
    && (forall i, k :: i in closed && k in live ==> i.provider != live[k].provider)
  }

  /** The lease's instance belongs to its own slot alone. */
  ghost predicate OwnSlot(live: map<string, Ident>, closed: multiset<Ident>, provider: int, generation: nat,
                          seen: set<int>) {
    && provider in seen
    && (forall k :: k in live && live[k].provider == provider ==> live[k].generation == generation)
    && (forall i :: i in closed && i.provider == provider ==> i.generation == generation)
  }

  ghost predicate Owned(s: Sys, seen: set<int>) {
    && OwnLive(s.core.live, s.closed, seen)
    && forall j :: 0 <= j < |s.leases| ==> OwnSlot(s.core.live, s.closed, s.leases[j].provider,
                                                   s.leases[j].generation, seen)
  }

  ghost predicate CleanRun(states: seq<Sys>, events: seq<Event>) {
    && Run(states, events)
    && forall i :: 0 <= i < |events| ==> events[i].Reload? ==> BringsNew(states[i], events[i].next, Seen(events[..i]))
  }

  /** No stream ever reads from a provider instance that was closed under it. */
  lemma InstancesAreSafe(states: seq<Sys>, events: seq<Event>, n: nat, id: nat)
    requires CleanRun(states, events) && n <= |events| && id < |states[n].leases| && !states[n].leases[id].phase.Over?
    ensures forall i :: i in states[n].closed ==> i.provider != states[n].leases[id].provider
  {
    EveryRunIsSafe(states, events, n);
    OwnersStay(states, events, n);
    LeasedIsOpen(states[n], id, map[]);
    var s := states[n];
    assert OwnSlot(s.core.live, s.closed, s.leases[id].provider, s.leases[id].generation, Seen(events[..n]));
  }

  lemma {:induction false} OwnersStay(states: seq<Sys>, events: seq<Event>, n: nat)
    requires CleanRun(states, events) && n <= |events|
    ensures Owned(states[n], Seen(events[..n]))
  {
    if n > 0 {
      OwnersStay(states, events, n - 1);
      EveryRunIsSafe(states, events, n - 1);
      assert events[..n][..n - 1] == events[..n - 1];
      hide Safe, Step, Owned, BringsNew;
      StepOwns(states[n - 1], events[n - 1], states[n], Seen(events[..n - 1]));
    }
  }

  lemma StepOwns(s: Sys, e: Event, t: Sys, seen: set<int>)
    requires Safe(s) && Step(s, e, t) && Owned(s, seen)
    requires e.Reload? ==> BringsNew(s, e.next, seen)
    ensures Owned(t, seen + if e.Reload? then e.next.Values else {})
  {
    hide Safe, Step, Owned, BringsNew;
    if e.Reload? {
      ReloadOwns(s, e.next, t, seen);
    } else {
      assert seen + {} == seen;
      SlotsStay(s, e, t);
      RestOwns(s, t, seen);
    }
  }

  /** Short of a reload, slots stay as they are, and a new lease is one on a live slot. */
  ghost predicate SameSlots(s: Sys, t: Sys) {
    && t.core.live == s.core.live && t.closed == s.closed && |s.leases| <= |t.leases| <= |s.leases| + 1
    && (forall j :: 0 <= j < |s.leases| ==>
         t.leases[j].provider == s.leases[j].provider && t.leases[j].generation == s.leases[j].generation)
    && (|t.leases| > |s.leases| ==>
         var l := t.leases[|s.leases|]; l.key in s.core.live && s.core.live[l.key] == Ident(l.provider, l.generation))
  }

  lemma SlotsStay(s: Sys, e: Event, t: Sys)
    requires Safe(s) && !e.Reload? && Step(s, e, t)
    ensures SameSlots(s, t)
  {
    hide Safe, Inv, Took;
    if e.Take? {
      TakeKeepsSlots(s, e, t);
    }
  }

  lemma TakeKeepsSlots(s: Sys, e: Event, t: Sys)
    requires e.Take? && Took(s, e, t)
    ensures SameSlots(s, t)
  {
    AcquireKeepsInv(s.core, e.pin, e.tried, e.model, e.now, KeyFlights(s), e.advance);
    hide Inv, Acquire;
  }

  lemma RestOwns(s: Sys, t: Sys, seen: set<int>)
    requires SameSlots(s, t) && Owned(s, seen)
    ensures Owned(t, seen)
  {
  }

  /** What a reload with new instances does to live slots and closed credentials. */
  ghost predicate Renewed(live: map<string, Ident>, closed: multiset<Ident>, next: map<string, int>,
                          live': map<string, Ident>, closed': multiset<Ident>, seen: set<int>) {
    && live'.Keys == next.Keys && (forall k, l :: k in next && l in next && next[k] == next[l] ==> k == l)
    && (forall k :: k in next ==> live'[k].provider == next[k])
    && (forall k :: k in next && next[k] in seen ==> k in live && live'[k] == live[k])
    && forall i :: i in closed' ==>
         || i in closed
         || exists k :: k in live && live[k] == i && (k in next ==> next[k] != live[k].provider)
  }

  lemma ReloadRenews(s: Sys, next: map<string, int>, t: Sys, seen: set<int>)
    requires Step(s, Reload(next), t) && BringsNew(s, next, seen)
    ensures Renewed(s.core.live, s.closed, next, t.core.live, t.closed, seen) && t.leases == s.leases
  {
    assert Numbered(s.core, next, t.core.live, next.Keys, t.core.generation);
    hide Updated;
    forall i | i in t.closed && i !in s.closed
      ensures exists k :: k in s.core.live && s.core.live[k] == i && (k in next ==> next[k] != s.core.live[k].provider)
    {
      assert i in Retired(s, next);
      var k :| k in s.core.live && !Stays(s.core, next, k) && s.core.live[k] == i;
      assert k in next ==> next[k] != s.core.live[k].provider;
    }
  }

  lemma LiveRenewed(live: map<string, Ident>, closed: multiset<Ident>, next: map<string, int>,
                    live': map<string, Ident>, closed': multiset<Ident>, seen: set<int>)
    requires Renewed(live, closed, next, live', closed', seen) && OwnLive(live, closed, seen)
    ensures OwnLive(live', closed', seen + next.Values)
  {
    forall i, k | i in closed' && k in live' ensures i.provider != live'[k].provider {
      if i !in closed && next[k] in seen {
        var l :| l in live && live[l] == i && (l in next ==> next[l] != live[l].provider);
        assert live'[k] == live[k] && (live[l].provider == live[k].provider ==> l == k);
      }
    }
  }

  lemma SlotRenewed(live: map<string, Ident>, closed: multiset<Ident>, next: map<string, int>,
                    live': map<string, Ident>, closed': multiset<Ident>, seen: set<int>, provider: int, generation: nat)
    requires Renewed(live, closed, next, live', closed', seen) && OwnSlot(live, closed, provider, generation, seen)
    ensures OwnSlot(live', closed', provider, generation, seen + next.Values)
  {
  }

  lemma ReloadOwns(s: Sys, next: map<string, int>, t: Sys, seen: set<int>)
    requires Step(s, Reload(next), t) && Owned(s, seen) && BringsNew(s, next, seen)
    ensures Owned(t, seen + next.Values)
  {
    ReloadRenews(s, next, t, seen);
    hide Step, OwnSlot, OwnLive, Renewed, BringsNew;
    LiveRenewed(s.core.live, s.closed, next, t.core.live, t.closed, seen);
    forall j | 0 <= j < |s.leases|
      ensures OwnSlot(t.core.live, t.closed, t.leases[j].provider, t.leases[j].generation, seen + next.Values)
    {
      SlotRenewed(s.core.live, s.closed, next, t.core.live, t.closed, seen, s.leases[j].provider,
                  s.leases[j].generation);
    }
  }
}
