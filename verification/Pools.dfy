/** One provider's account pool: slots, their leases, and failover across accounts. */
module Pools {
  import opened Chunks
  import opened Sorting
  import opened Seqs
  import opened PoolCore
  import opened Affinities
  import Lex
  import Swrr
  import Keys

  /** One loaded credential. Only the count of its leases ever changes. */
  class Slot {
    const key: string
    const provider: int
    const generation: nat
    var inFlight: nat

    constructor (key: string, provider: int, generation: nat)
      ensures this.key == key && this.provider == provider && this.generation == generation && inFlight == 0
    {
      this.key, this.provider, this.generation, inFlight := key, provider, generation, 0;
    }
  }

  /** The pin store after an acquire: looked up, and set to the account that was drawn. */
  ghost predicate Remembers(v: View, session: string, now: real, loaded: bool, pinned: bool, chosen: Option<string>,
                            w: View) {
    var looked := if loaded then AfterLookup(v, session, now) else v;
    if chosen.Some? && !pinned then Pinned(looked, session, chosen.value, now, w) else w == looked
  }

  /** Whichever way the account was found, the conversation is pinned to it from then on. */
  lemma AcquirePins(v: View, session: string, now: real, pinned: bool, chosen: Option<string>, w: View)
    requires Affinities.Inv(v) && v.enabled && session != "" && chosen.Some? && chosen.value != ""
    requires pinned ==> Hit(v, session, now) == chosen
    requires Remembers(v, session, now, true, pinned, chosen, w)
    ensures Hit(w, session, now) == chosen
  {
    var looked := AfterLookup(v, session, now);
    StepKeeps(v, Lookup(session, now), looked);
    if !pinned {
      PinTakesHold(looked, session, chosen.value, now, w);
    }
  }

  /** What a reload keeps: nothing about keys that are gone. */
  ghost predicate Restricted(c: Core, next: map<string, int>, order: seq<string>, rr: nat, failed: map<string, real>,
                             blocked: map<Block, real>, hard: set<Block>, swrr: map<string, int>)
  {
    && Sorted(order, KeyLess()) && Distinct(order) && (forall k :: k in order <==> k in next)
    && rr == (if order == [] then 0 else c.rr % |order|)
    && failed == OnlyKeys(c.failed, next.Keys) && swrr == OnlyKeys(c.swrr, next.Keys)
    && blocked == OnlyBlocks(c.blocked, next.Keys)
    && hard == (set b | b in c.hard && b.0 in next)
  }

  function OnlyKeys<T>(m: map<string, T>, keys: set<string>): map<string, T> {
    map k | k in m && k in keys :: m[k]
  }

  function OnlyBlocks(m: map<Block, real>, keys: set<string>): map<Block, real> {
    map b | b in m && b.0 in keys :: m[b]
  }

  lemma RestrictedSame(a: Core, b: Core, next: map<string, int>, w: Core)
    requires a.rr == b.rr && a.failed == b.failed && a.blocked == b.blocked && a.hard == b.hard && a.swrr == b.swrr
    requires Restricted(a, next, w.order, w.rr, w.failed, w.blocked, w.hard, w.swrr)
    ensures Restricted(b, next, w.order, w.rr, w.failed, w.blocked, w.hard, w.swrr)
  {
    hide Sorted, Distinct, KeyLess;
  }

  /** A hot reload, as a relation: only the numbering of the new generations is left open. */
  ghost predicate Updated(c: Core, next: map<string, int>, w: Core) {
    && Numbered(c, next, w.live, next.Keys, w.generation)
    && Restricted(c, next, w.order, w.rr, w.failed, w.blocked, w.hard, w.swrr)
    && w.strategy == c.strategy && w.weights == c.weights
  }

  lemma UpdateKeepsInv(c: Core, next: map<string, int>, w: Core)
    requires PoolCore.Inv(c) && Updated(c, next, w)
    ensures PoolCore.Inv(w)
  {
    NumberedIssues(c, next, w.live, w.generation);
    hide Numbered, Issued, Sorted, Distinct, KeyLess;
    if w.order == [] {
      assert w.rr == 0;
    } else {
      assert w.rr < |w.order|;
    }
  }

  /**
   A replacement is not a fresh start: it inherits the cooldown and the quota blocks of the credential
   whose key it takes, while nothing is remembered about keys that left.
   */
  lemma ReplacementInherits(c: Core, next: map<string, int>, w: Core, key: string, model: string)
    requires Updated(c, next, w)
    ensures FailedUntil(w, key) == (if key in next then FailedUntil(c, key) else 0.0)
    ensures BlockedUntil(w, key, model) == (if key in next then BlockedUntil(c, key, model) else 0.0)
    ensures (key, model) in w.hard <==> key in next && (key, model) in c.hard
  {
  }

  /**
   Storing only positive weights starves nobody: afterwards every account weighs what was given for it, or
   the default where nothing positive was, so any later draw among healthy accounts has a positive total.
   */
  lemma WeightsTakeEffect(c: Core, given: map<string, int>, keys: seq<string>)
    requires PoolCore.Inv(c) && keys != []
    ensures var after := c.(weights := PositiveOnly(given));
            && PoolCore.Inv(after)
            && (forall k :: WeightOf(after, k) == if k in given && given[k] > 0 then given[k] else DEFAULT_WEIGHT)
            && Swrr.Total(keys, Weights(after, keys)) > 0
  {
    var after := c.(weights := PositiveOnly(given));
    InvAgain(c, after);
    hide PoolCore.Inv;
    Swrr.TotalPositive(keys, Weights(after, keys));
  }

  /**
   A manual exclusion is final: whatever the pin, the tried accounts, the cooldowns and the strategy, no
   excluded account is ever acquired for the model, not even when everything else is cooling; and every
   account that is not excluded stays within reach.
   */
  lemma ExclusionsAreFinal(c: Core, blocks: set<Block>, pin: Option<string>, tried: set<string>, model: string,
                           now: real,
                           flights: map<string, nat>, advance: bool)
    requires PoolCore.Inv(c) && flights.Keys == c.live.Keys
    ensures PoolCore.Inv(c.(hard := blocks))
    ensures var got := Acquire(c.(hard := blocks), pin, tried, model, now, flights, advance).0;
            && (got.Some? ==> (got.value, model) !in blocks)
            && (got.None? <==> forall k :: k in c.live && k !in tried ==> (k, model) in blocks)
  {
    InvAgain(c, c.(hard := blocks));
    AcquireIsBest(c.(hard := blocks), pin, tried, model, now, flights, advance);
    hide Acquire, PoolCore.Inv, Cooling, ResetsBefore;
  }

  /** The order is a function of the credential set: reloading the same set reproduces it. */
  lemma OrderIsDetermined(a: seq<string>, b: seq<string>)
    requires Sorted(a, KeyLess()) && Distinct(a) && Sorted(b, KeyLess()) && Distinct(b)
    requires forall k :: k in a <==> k in b
    ensures a == b
  {
    SameMembers(a, b);
    SortedUnique(a, b);
  }

  lemma {:induction false} SortedUnique(a: seq<string>, b: seq<string>)
    requires Sorted(a, KeyLess()) && Distinct(a) && Sorted(b, KeyLess()) && Distinct(b)
    requires |a| == |b| && forall k :: k in a <==> k in b
    ensures a == b
  {
    if a != [] {
      var n := |a| - 1;
      LastIsGreatest(a);
      LastIsGreatest(b);
      Lex.Total(a[n], b[n]);
      assert a[n] in b && b[n] in a;
      assert a[n] == b[n];
      forall k ensures k in a[..n] <==> k in b[..n] {
        assert k in a <==> k in b;
      }
      SortedUnique(a[..n], b[..n]);
      assert a == a[..n] + [a[n]] && b == b[..n] + [b[n]];
    }
  }

  lemma LastIsGreatest(a: seq<string>)
    requires Sorted(a, KeyLess()) && Distinct(a) && a != []
    ensures var last := a[|a| - 1];
            (forall k :: k in a ==> !Lex.Less(last, k)) && (forall k :: k in a[..|a| - 1] <==> k in a && k != last)
  {
    Lex.Irreflexive(a[|a| - 1]);
    assert a == a[..|a| - 1] + [a[|a| - 1]];
    forall k | k in a ensures !Lex.Less(a[|a| - 1], k) {
      var i :| 0 <= i < |a| && a[i] == k;
      assert i < |a| - 1 ==> !KeyLess()(a[|a| - 1], a[i]);
    }
  }

  function AfterLease(flights: map<string, nat>, key: Option<string>): map<string, nat> {
    if key.Some? && key.value in flights then flights[key.value := flights[key.value] + 1] else flights
  }

  function AfterReturn(flights: map<string, nat>, key: string): map<string, nat> {
    if key in flights && flights[key] > 0 then flights[key := flights[key] - 1] else flights
  }

  lemma LeaseReturned(flights: map<string, nat>, key: string)
    ensures AfterReturn(AfterLease(flights, Some(key)), key) == flights
  {
    assert key in flights ==> flights[key := flights[key]] == flights;
  }

  /** The byte order on keys is one the sort can use. */
  lemma KeyOrder()
    ensures StrictWeakOrder(KeyLess())
  {
    forall a: string ensures !KeyLess()(a, a) {
      Lex.Irreflexive(a);
    }
    forall a: string, b: string, c: string | KeyLess()(a, b) && KeyLess()(b, c) ensures KeyLess()(a, c) {
      Lex.Transitive(a, b, c);
    }
    forall a: string, b: string, c: string | !KeyLess()(a, b) && !KeyLess()(b, c) ensures !KeyLess()(a, c) {
      Lex.AtMostTransitive(c, b, a);
    }
  }

  lemma StaysDistinct(s: seq<string>, t: seq<string>)
    requires Distinct(s) && multiset(s) == multiset(t)
    ensures Distinct(t)
  {
    DistinctCount(s);
    forall i, j | 0 <= i < j < |t| ensures t[i] != t[j] {
      if t[i] == t[j] {
        Keys.TwiceCounted(t, i, j);
      }
    }
  }

  function PositiveOnly(given: map<string, int>): map<string, int> {
    map k | k in given && given[k] > 0 :: given[k]
  }

  function Idents(slots: map<string, Slot>): map<string, Ident> {
    map k | k in slots :: Ident(slots[k].provider, slots[k].generation)
  }

  /** A reload keeps the slot of an unchanged provider instance. */
  predicate Same(slots: map<string, Slot>, next: map<string, int>, key: string) {
    key in slots && key in next && slots[key].provider == next[key]
  }

  /** The slots under `keys` that a reload drops while nothing runs on them. */
  ghost function Idle(slots: map<string, Slot>, next: map<string, int>, keys: set<string>): set<Slot>
    reads slots.Values
  {
    set k | k in keys && k in slots && !Same(slots, next, k) && slots[k].inFlight == 0 :: slots[k]
  }

  /** A reload's new slots: the kept ones are the same objects, the others are new and idle. */
  ghost predicate Rebuilt(slots: map<string, Slot>, next: map<string, int>, built: map<string, Slot>, keys: set<string>)
    requires keys <= next.Keys
    reads built.Values
  {
    && built.Keys == keys && (forall k :: k in keys ==> built[k].key == k)
    && (forall k :: k in keys ==> if Same(slots, next, k) then built[k] == slots[k] else built[k].inFlight == 0)
  }

  ghost predicate Built(c: Core, slots: map<string, Slot>, next: map<string, int>, built: map<string, Slot>,
                        keys: set<string>, generation: nat)
    reads built.Values
  {
    keys <= next.Keys && c.live == Idents(slots) && Rebuilt(slots, next, built, keys)
      && Numbered(c, next, Idents(built), keys, generation)
  }

  lemma LiveAt(slots: map<string, Slot>, key: string)
    ensures key in Idents(slots) <==> key in slots
    ensures key in slots ==> Idents(slots)[key] == Ident(slots[key].provider, slots[key].generation)
  {
  }

  lemma IdleGrows(slots: map<string, Slot>, next: map<string, int>, keys: set<string>, key: string)
    ensures Idle(slots, next, keys + {key}) == Idle(slots, next, keys) +
            Idle(slots, next, {key})
  {
  }

  lemma IdentsGrow(slots: map<string, Slot>, key: string, slot: Slot)
    ensures Idents(slots[key := slot]) == Idents(slots)[key := Ident(slot.provider, slot.generation)]
  {
  }

  lemma RebuiltGrows(slots: map<string, Slot>, next: map<string, int>, built: map<string, Slot>, keys: set<string>,
                     key: string, slot: Slot)
    requires keys <= next.Keys && key in next && Rebuilt(slots, next, built, keys) && slot.key == key
    requires if Same(slots, next, key) then slot == slots[key] else slot.inFlight == 0
    ensures Rebuilt(slots, next, built[key := slot], keys + {key})
  {
  }

  function AfterFailure(c: Core, key: string, generation: nat, model: string, reset: Option<real>, now: real): Core {
    if reset.Some? && model != "" then MarkBlocked(c, key, model, reset.value, now)
      else MarkFailed(c, key, generation, now)
  }

  function AfterForget(v: View, session: string, failedKey: string, now: real): View {
    if Hit(v, session, now) == Some(failedKey) then v.(entries := v.entries - {session}) else v
  }

  /** What one upstream call comes to, and whether the caller had gone away around it. */
  datatype Attempt = Attempt(result: Outcome, goneBefore: bool, goneAfter: bool)

  datatype Outcome =
    | Served(body: string)
    | Failed(clientAbort: bool, rejected: bool, reset: Option<real>)

  /** Who else uses the pools during a request. */
  datatype Meanwhile = Nobody | Requests | Reloads

  /** How a request leaves the pool. */
  datatype Answer =
    | Done(response: string)
    | Aborted
    | Rejected
    | Exhausted
    | Unavailable

  /** A failure that says something about the account, so the next one is tried. */
  predicate Retryable(a: Attempt) {
    a.result.Failed? && !a.goneBefore && !a.result.clientAbort && !a.result.rejected
  }

  /** A failure that is about the request, not about the account. */
  predicate Refused(a: Attempt) {
    a.result.Failed? && !a.goneBefore && !a.result.clientAbort && a.result.rejected
  }

  /** A failure during which, or after which, the caller went away. */
  predicate CallerLeft(a: Attempt) {
    a.result.Failed? && (a.goneBefore || a.result.clientAbort || (Retryable(a) && a.goneAfter))
  }

  /** A failure after which the loop goes on to the next account. */
  predicate MovesOn(a: Attempt) {
    Retryable(a) && !a.goneAfter
  }

  /** All calls so far failed in a way that moves on, and no account was called twice. */
  ghost predicate Tried(asked: seq<string>, script: nat -> Attempt, open: set<string>) {
    Distinct(asked) && (forall k :: k in asked ==> k in open) && forall i: nat :: i < |asked| ==> MovesOn(script(i))
  }

  /** The account called last, and what came of it. */
  ghost predicate Called(asked: seq<string>, script: nat -> Attempt, open: set<string>) {
    && asked != [] && Distinct(asked) && (forall k :: k in asked ==> k in open)
    && forall i: nat :: i < |asked| - 1 ==> MovesOn(script(i))
  }

  /**
   How a request ends. Each account, whichever are loaded when, is called at most once; the pool gives up
   exactly when every account that is open by then was called and failed for a reason that is neither the
   caller leaving nor the request itself.
   */
  ghost predicate EndsAmong(answer: Answer, asked: seq<string>, script: nat -> Attempt, known: set<string>,
                            open: set<string>) {
    match answer
    case Unavailable => asked == [] && open == {}
    case Exhausted => asked != [] && Tried(asked, script, known) && forall k :: k in open ==> k in asked
    case Done(body) => Called(asked, script, known) && script(|asked| - 1).result == Served(body)
    case Rejected =>
      && Called(asked, script, known) && Refused(script(|asked| - 1))
    case Aborted =>
      && Called(asked, script, known) && CallerLeft(script(|asked| - 1))
  }

  /** The same with one fixed set of open accounts. */
  ghost predicate Ends(answer: Answer, asked: seq<string>, script: nat -> Attempt, open: set<string>) {
    EndsAmong(answer, asked, script, open, open)
  }

  lemma EndsFixed(answer: Answer, asked: seq<string>, script: nat -> Attempt, known: set<string>, open: set<string>)
    requires EndsAmong(answer, asked, script, known, open) && Within(asked, open)
    ensures Ends(answer, asked, script, open)
  {
  }

  ghost predicate Within(asked: seq<string>, keys: set<string>) {
    forall k :: k in asked ==> k in keys
  }

  /** The accounts that may serve the model at all. */
  function OpenSet(slots: map<string, Slot>, hard: set<Block>, model: string): set<string> {
    set k | k in slots && (k, model) !in hard
  }

  lemma NoneTried(script: nat -> Attempt, open: set<string>)
    ensures Tried([], script, open)
  {
  }

  lemma GivesUp(asked: seq<string>, script: nat -> Attempt, known: set<string>, open: set<string>)
    requires Tried(asked, script, known) && open <= Members(asked)
    ensures EndsAmong(if asked == [] then Unavailable else Exhausted, asked, script, known, open)
  {
  }

  lemma AskedGrows(asked: seq<string>, script: nat -> Attempt, known: set<string>, key: string)
    requires Tried(asked, script, known) && key in known && key !in Members(asked)
    ensures Called(asked + [key], script, known)
    ensures |known - Members(asked + [key])| < |known - Members(asked)|
    ensures Verdict(script(|asked|)).None? ==> Tried(asked + [key], script, known)
  {
    assert known - Members(asked + [key]) == known - Members(asked) - {key};
  }

  lemma WithinGrows(asked: seq<string>, keys: set<string>, key: string)
    requires Within(asked, keys) && key in keys
    ensures Within(asked + [key], keys)
  {
  }

  lemma NoneWithin(keys: set<string>)
    ensures Within([], keys)
  {
  }

  /** What one call settles by itself: the request's end, or nothing if the next account is to be called. */
  function Verdict(a: Attempt): Option<Answer> {
    if a.result.Served? then Some(Done(a.result.body))
    else if a.goneBefore || a.result.clientAbort then Some(Aborted)
    else if a.result.rejected then Some(Rejected)
    else if a.goneAfter then Some(Aborted)
    else None
  }

  /** The last call decides how the request ends, unless it moves on. */
  lemma LastDecides(asked: seq<string>, script: nat -> Attempt, known: set<string>, open: set<string>)
    requires Called(asked, script, known) && Verdict(script(|asked| - 1)).Some?
    ensures EndsAmong(Verdict(script(|asked| - 1)).value, asked, script, known, open)
  {
  }

  /** The outcome alone says which of the five ends it was. */
  lemma EndIsDetermined(a: Answer, b: Answer, asked: seq<string>, script: nat -> Attempt, open: set<string>)
    requires Ends(a, asked, script, open) && Ends(b, asked, script, open)
    ensures a == b
  {
    if asked != [] {
      assert MovesOn(script(|asked| - 1)) || !MovesOn(script(|asked| - 1));
    }
  }

  // ---- which accounts an undisturbed request asks ----

  function AfterCall(c: Core, key: string, model: string, attempt: Attempt, now: real): Core
    requires key in c.live
  {
    if Retryable(attempt) then AfterFailure(c, key, c.live[key].generation, model, attempt.result.reset, now) else c
  }

  ghost predicate Finds(c: Core, pin: Option<string>, tried: set<string>, model: string, now: real,
                        flights: map<string, nat>, advance: bool, key: Option<string>, after: Core) {
    PoolCore.Inv(c) && flights.Keys == c.live.Keys
      && Acquire(c, pin, tried, model, now, flights, advance) == (key, after)
  }

  /**
   The next account asked is the one `Acquire` picks, advancing for the first account only; cursor and
   accumulators are left as it leaves them, and a failure of the account is marked.
   */
  ghost predicate Picks(c: Core, pin: Option<string>, tried: seq<string>, key: string, model: string, attempt: Attempt,
                        now: real, later: real, flights: map<string, nat>, d: Core) {
    exists after :: Finds(c, pin, Members(tried), model, now, flights, tried == [], Some(key), after)
                    && key in after.live && d == AfterCall(after, key, model, attempt, later)
  }

  /** Which pin it finds: the one at entry first, and none once an account failed, unless that one's key is empty. */
  ghost predicate PicksNext(first: Option<string>, tried: seq<string>, key: string, model: string, attempt: Attempt,
                            now: real, later: real, flights: map<string, nat>, c: Core, d: Core) {
    exists pin :: Picks(c, pin, tried, key, model, attempt, now, later, flights, d)
                  && if tried == [] then pin == first else tried[|tried| - 1] != "" ==> pin == None
  }

  /** The accounts an undisturbed request asks, one after another, and what each leaves of the pool. */
  ghost predicate Follows(c: Core, pin: Option<string>, model: string, script: nat -> Attempt, clock: nat -> real,
                          flights: map<string, nat>, asked: seq<string>, cores: seq<Core>) {
    && |cores| == |asked| + 1 && cores[0] == c
    && forall i :: 0 <= i < |asked| ==>
         PicksNext(pin, asked[..i], asked[i], model, script(i), clock(i), clock(i + 1), flights, cores[i], cores[i + 1])
  }

  lemma FoundIsOpen(c: Core, pin: Option<string>, tried: set<string>, model: string, now: real,
                    flights: map<string, nat>, advance: bool, key: Option<string>, after: Core)
    requires Finds(c, pin, tried, model, now, flights, advance, key, after)
    ensures after.live == c.live && after.hard == c.hard && PoolCore.Inv(after) && (key.None? ==> after == c)
    ensures key.None? ==> forall k :: k in c.live && (k, model) !in c.hard ==> k in tried
    ensures key.Some? ==> key.value in c.live && (key.value, model) !in c.hard && key.value !in tried
  {
    AcquireIsBest(c, pin, tried, model, now, flights, advance);
    AcquireKeepsInv(c, pin, tried, model, now, flights, advance);
    hide PoolCore.Inv, Cooling, ResetsBefore;
    NothingFound(c, pin, tried, model, now, flights, advance);
    hide Acquire;
  }

  lemma NothingFound(c: Core, pin: Option<string>, tried: set<string>, model: string, now: real,
                     flights: map<string, nat>, advance: bool)
    requires PoolCore.Inv(c) && flights.Keys == c.live.Keys
    ensures var (key, after) := Acquire(c, pin, tried, model, now, flights, advance); key.None? ==> after == c
  {
    hide PoolCore.Inv, Eligible, Healthy, Choose, Soonest, PinUsable;
  }

  lemma PickedNext(first: Option<string>, c: Core, pin: Option<string>, tried: seq<string>, key: string, model: string,
                   attempt: Attempt, now: real, later: real, flights: map<string, nat>, after: Core, d: Core)
    requires Finds(c, pin, Members(tried), model, now, flights, tried == [], Some(key), after)
    requires key in after.live && d == AfterCall(after, key, model, attempt, later)
    ensures (if tried == [] then pin == first else tried[|tried| - 1] != "" ==> pin == None) ==>
              PicksNext(first, tried, key, model, attempt, now, later, flights, c, d)
  {
    hide Finds, AfterCall, Members;
    assert Picks(c, pin, tried, key, model, attempt, now, later, flights, d);
  }

  lemma FollowsNone(c: Core, pin: Option<string>, model: string, script: nat -> Attempt, clock: nat -> real,
                    flights: map<string, nat>)
    ensures Follows(c, pin, model, script, clock, flights, [], [c])
  {
  }

  lemma FollowsOn(c: Core, first: Option<string>, model: string, script: nat -> Attempt, clock: nat -> real,
                  flights: map<string, nat>, asked: seq<string>, cores: seq<Core>, key: string, d: Core)
    requires Follows(c, first, model, script, clock, flights, asked, cores)
    requires var i := |asked|;
             PicksNext(first, asked, key, model, script(i), clock(i), clock(i + 1), flights, cores[i], d)
    ensures Follows(c, first, model, script, clock, flights, asked + [key], cores + [d])
  {
    hide PicksNext;
    var longer, more := asked + [key], cores + [d];
    forall i | 0 <= i < |longer|
      ensures PicksNext(first, longer[..i], longer[i], model, script(i), clock(i), clock(i + 1), flights, more[i],
                        more[i + 1])
    {
      assert i < |asked| ==> longer[..i] == asked[..i];
      assert i == |asked| ==> longer[..i] == asked;
    }
  }

  /**
   However many accounts an undisturbed request asks, cursor and accumulators end up where the first
   acquire, the only advancing one, put them: where they were if a usable pin served it.
   */
  lemma {:induction false} OneDrawPerRequest(c: Core, pin: Option<string>, model: string, script: nat -> Attempt,
                                             clock: nat -> real, flights: map<string, nat>, asked: seq<string>,
                                             cores: seq<Core>, n: nat)
    requires Follows(c, pin, model, script, clock, flights, asked, cores) && 0 < n <= |asked|
    ensures PoolCore.Inv(c) && flights.Keys == c.live.Keys
    ensures var (got, after) := Acquire(c, pin, {}, model, clock(0), flights, true);
            && got == Some(asked[0]) && cores[n].rr == after.rr && cores[n].swrr == after.swrr
            && (pin.Some? && PinUsable(c, pin.value, {}, model, clock(0)) ==> pin == Some(asked[0]) && after == c)
  {
    assert PicksNext(pin, asked[..n - 1], asked[n - 1], model, script(n - 1), clock(n - 1), clock(n), flights,
                     cores[n - 1], cores[n]);
    hide PicksNext, Acquire, PinUsable;
    if n == 1 {
      assert asked[..0] == [];
      FirstPick(c, pin, asked[0], model, script(0), clock(0), clock(1), flights, cores[1]);
    } else {
      OneDrawPerRequest(c, pin, model, script, clock, flights, asked, cores, n - 1);
      LaterPick(pin, asked[..n - 1], asked[n - 1], model, script(n - 1), clock(n - 1), clock(n), flights, cores[n - 1],
                cores[n]);
    }
  }

  lemma FirstPick(c: Core, pin: Option<string>, key: string, model: string, attempt: Attempt, now: real, later: real,
                  flights: map<string, nat>, d: Core)
    requires PicksNext(pin, [], key, model, attempt, now, later, flights, c, d)
    ensures PoolCore.Inv(c) && flights.Keys == c.live.Keys
    ensures var (got, after) := Acquire(c, pin, {}, model, now, flights, true);
            && got == Some(key) && key in after.live && d == AfterCall(after, key, model, attempt, later)
            && d.rr == after.rr && d.swrr == after.swrr
            && (pin.Some? && PinUsable(c, pin.value, {}, model, now) ==> pin == Some(key) && after == c)
  {
    hide PoolCore.Inv, Drawn, PinUsable, AfterCall;
    assert Members([]) == {};
    CallKeeps(Acquire(c, pin, {}, model, now, flights, true).1, key, model, attempt, later);
  }

  lemma LaterPick(first: Option<string>, tried: seq<string>, key: string, model: string, attempt: Attempt,
                  now: real, later: real, flights: map<string, nat>, c: Core, d: Core)
    requires PicksNext(first, tried, key, model, attempt, now, later, flights, c, d) && tried != []
    ensures d.rr == c.rr && d.swrr == c.swrr
  {
    hide PoolCore.Inv, Acquire, AfterCall, Members;
    var pin :| Picks(c, pin, tried, key, model, attempt, now, later, flights, d);
    RetryMovesNothing(c, pin, Members(tried), model, now, flights);
    CallKeeps(c, key, model, attempt, later);
  }

  lemma CallKeeps(c: Core, key: string, model: string, attempt: Attempt, now: real)
    requires key in c.live
    ensures var after := AfterCall(c, key, model, attempt, now); after.rr == c.rr && after.swrr == c.swrr
  {
  }

  /** After an acquire a conversation is pinned to that account or to none, unless its key is empty. */
  lemma OnlyPin(v: View, session: string, now: real, loaded: bool, pinned: bool, chosen: string, w: View, t: real)
    requires Affinities.Inv(v) && chosen != "" && Remembers(v, session, now, loaded, pinned, Some(chosen), w)
    requires pinned ==> Hit(v, session, now) == Some(chosen)
    ensures Hit(w, session, t) in {None, Some(chosen)}
  {
  }

  lemma OnlyRetryable(a: Attempt)
    ensures Verdict(a).None? ==> Retryable(a)
  {
  }

  lemma PinCleared(w: View, session: string, key: string, t: real)
    requires Hit(w, session, t) in {None, Some(key)}
    ensures Hit(AfterForget(w, session, key, t), session, t) == None
  {
  }

  class Pool {
    var slots: map<string, Slot>
    var order: seq<string>
    var rr: nat
    var failed: map<string, real>
    var blocked: map<Block, real>
    var hard: set<Block>
    var generation: nat
    var strategy: Strategy
    var weights: map<string, int>
    var swrr: map<string, int>
    var affinity: Affinity?

    function Now(): Core
      reads this
    {
      Core(Idents(slots), order, rr, failed, blocked, hard, generation, strategy, weights, swrr)
    }

    ghost function Flights(): map<string, nat>
      reads this, slots.Values
    {
      map k | k in slots :: slots[k].inFlight
    }

    ghost predicate Valid()
      reads this
    {
      PoolCore.Inv(Now()) && Keyed()
    }

    ghost function PinOf(session: string, now: real): Option<string>
      reads this, affinity
    {
      if affinity == null then None else Hit(affinity.Now(), session, now)
    }

    constructor ()
      ensures Valid() && slots == map[] && affinity == null
    {
      slots, order, rr, failed, blocked, hard := map[], [], 0, map[], map[], {};
      generation, strategy, weights, swrr, affinity := 0, RoundRobin, map[], map[], null;
    }

    /** A new strategy starts a clean draw. */
    method SetStrategy(next: Strategy)
      requires Valid()
      modifies this`swrr, this`strategy
      ensures Valid()
      ensures Now() == old(Now()).(strategy := next, swrr := if next != old(strategy) then map[] else old(swrr))
    {
      if next != strategy {
        swrr := map[];
      }
      strategy := next;
    }

    /** Only positive weights are stored. */
    method SetWeights(given: map<string, int>)
      requires Valid()
      modifies this`weights
      ensures Valid() && Now() == old(Now()).(weights := PositiveOnly(given))
    {
      weights := PositiveOnly(given);
    }

    method SetHardBlocks(blocks: set<Block>)
      requires Valid()
      modifies this`hard
      ensures Valid() && Now() == old(Now()).(hard := blocks)
    {
      hard := blocks;
    }

    // ---- acquire ----

    method EligibleKeys(tried: set<string>, model: string) returns (eligible: seq<string>)
      ensures eligible == Eligible(Now(), tried, model)
    {
      eligible := [];
      for i := 0 to |order|
        invariant eligible == Filter(order[..i], Free(Now(), tried, model))
      {
        assert order[..i + 1][..i] == order[..i];
        if (order[i], model) !in hard && order[i] !in tried {
          eligible := eligible + [order[i]];
        }
      }
      assert order[..|order|] == order;
    }

    method HealthyKeys(eligible: seq<string>, model: string, now: real) returns (healthy: seq<string>)
      ensures healthy == Filter(eligible, Warm(Now(), model, now))
    {
      healthy := [];
      for i := 0 to |eligible|
        invariant healthy == Filter(eligible[..i], Warm(Now(), model, now))
      {
        assert eligible[..i + 1][..i] == eligible[..i];
        if !Cooling(Now(), eligible[i], model, now) {
          healthy := healthy + [eligible[i]];
        }
      }
      assert eligible[..|eligible|] == eligible;
    }

    method RotateKey(healthy: seq<string>, advance: bool) returns (key: string)
      requires order != [] && healthy != []
      modifies this`rr
      ensures key == Rotate(order, healthy, old(rr)).0
      ensures rr == if advance then Rotate(order, healthy, old(rr)).1 else old(rr)
    {
      var count, first := |order|, rr % |order|;
      for offset := 0 to count
        invariant Walk(order, Members(healthy), first, 0) == Walk(order, Members(healthy), first, offset)
        invariant rr == old(rr)
      {
        var index := (first + offset) % count;
        if order[index] in Members(healthy) {
          if advance {
            rr := (index + 1) % count;
          }
          return order[index];
        }
      }
      return healthy[0];
    }

    method BumpAll(keys: seq<string>, advance: bool) returns (total: int)
      modifies this`swrr
      ensures total == Swrr.Total(keys, Weights(old(Now()), keys))
      ensures swrr == if advance then Swrr.Bump(keys, Weights(old(Now()), keys), old(swrr)) else old(swrr)
    {
      hide *;
      total := 0;
      ghost var c := Now();
      ghost var w := Weights(c, keys);
      NowWeights();
      WeightsKeys(c, keys);
      Swrr.NoneCounted(keys, w, swrr);
      for i := 0 to |keys|
        invariant total == Swrr.Total(keys[..i], w) && weights == old(weights)
        invariant swrr == if advance then Swrr.Bump(keys[..i], w, old(swrr)) else old(swrr)
      {
        Swrr.CountNext(keys, w, old(swrr), i);
        NowWeights();
        SameWeight(c, Now(), keys, keys[i]);
        var weight := WeightOf(Now(), keys[i]);
        total := total + weight;
        if advance {
          swrr := swrr[keys[i] := Swrr.Get(swrr, keys[i]) + weight];
        }
      }
      assert keys[..|keys|] == keys;
    }

    lemma NowWeights()
      ensures Now().weights == weights
    {
    }

    method Leader(keys: seq<string>) returns (key: string)
      requires keys != []
      ensures key == Swrr.Best(keys, swrr)
    {
      key := keys[0];
      for i := 1 to |keys|
        invariant key == Swrr.Best(keys[..i], swrr)
      {
        assert keys[..i + 1][..i] == keys[..i];
        if Swrr.Get(swrr, keys[i]) > Swrr.Get(swrr, key) {
          key := keys[i];
        }
      }
      assert keys[..|keys|] == keys;
    }

    method DrawKey(keys: seq<string>, advance: bool) returns (key: string)
      requires Valid() && keys != []
      modifies this`swrr
      ensures key == DrawWeighted(old(Now()), keys, advance).0
      ensures swrr == DrawWeighted(old(Now()), keys, advance).1
    {
      hide Swrr.Bump, Swrr.Best, Swrr.Total, Swrr.Get, PoolCore.Inv;
      if |keys| == 1 {
        return keys[0];
      }
      var total := BumpAll(keys, advance);
      key := Leader(keys);
      if advance {
        swrr := swrr[key := Swrr.Get(swrr, key) - total];
      }
    }

    method FirstKey(healthy: seq<string>) returns (key: string)
      requires Valid() && healthy != [] && forall k :: k in healthy ==> k in slots
      ensures key == FirstToFill(Now(), Flights(), healthy)
    {
      hide *;
      ghost var c, flights := Now(), Flights();
      FlightsOfSlots();
      key := healthy[0];
      FirstAlone(c, flights, healthy);
      for i := 1 to |healthy|
        invariant key in slots && key == FirstToFill(c, flights, healthy[..i])
      {
        FirstGrows(c, flights, healthy, i);
        if Before(healthy[i], key) {
          key := healthy[i];
        }
      }
      assert healthy[..|healthy|] == healthy;
    }

    lemma FlightsOfSlots()
      ensures Flights().Keys == slots.Keys == Now().live.Keys
    {
    }

    predicate Before(left: string, right: string)
      requires left in slots && right in slots
      reads this, slots.Values
      ensures Before(left, right) == FillsBefore(Now(), Flights(), left, right)
    {
      var leftWeight, rightWeight := WeightOf(Now(), left), WeightOf(Now(), right);
      var leftFlight, rightFlight := slots[left].inFlight, slots[right].inFlight;
      if leftWeight != rightWeight then leftWeight > rightWeight
      else if leftFlight != rightFlight then leftFlight < rightFlight
      else Lex.Less(left, right)
    }

    method ChooseKey(healthy: seq<string>, advance: bool) returns (key: string)
      requires Valid() && order != [] && healthy != [] && forall k :: k in healthy ==> k in slots
      modifies this`rr, this`swrr
      ensures key == Choose(old(Now()), healthy, old(Flights()), advance).0
      ensures Now() == Choose(old(Now()), healthy, old(Flights()), advance).1
    {
      hide DrawWeighted, Rotate, FirstToFill, PoolCore.Inv;
      match strategy
      case Weighted => key := DrawKey(healthy, advance);
      case FillFirst => key := FirstKey(healthy);
      case RoundRobin => key := RotateKey(healthy, advance);
    }

    /** Everything is cooling: try the account whose deadlines end first. */
    method CanaryKey(eligible: seq<string>, model: string) returns (key: string)
      requires eligible != []
      ensures key == Soonest(Now(), eligible, model)
    {
      var keys := new string[|eligible|](i requires 0 <= i < |eligible| => eligible[i]);
      assert keys[..] == eligible;
      InsertionSort(keys, ResetLess(Now(), model));
      SortSize(eligible, ResetLess(Now(), model));
      key := keys[0];
      assert keys[..][0] == keys[0];
    }

    /** The draw without a pin. */
    method DrawAny(tried: set<string>, model: string, advance: bool, now: real) returns (key: Option<string>)
      requires Valid()
      modifies this`rr, this`swrr
      ensures key == Drawn(old(Now()), tried, model, now, old(Flights()), advance).0
      ensures Now() == Drawn(old(Now()), tried, model, now, old(Flights()), advance).1
    {
      FlightsOfSlots();
      hide Eligible, Choose, Soonest, PoolCore.Inv, Idents, Cooling, Flights;
      EligibleMembers(Now(), tried, model, now);
      var eligible := EligibleKeys(tried, model);
      if eligible == [] {
        return None;
      }
      var healthy := HealthyKeys(eligible, model, now);
      if healthy != [] {
        var chosen := ChooseKey(healthy, advance);
        return Some(chosen);
      }
      var chosen := CanaryKey(eligible, model);
      return Some(chosen);
    }

    function SlotOf(key: string): Slot?
      reads this
    {
      if key in slots then slots[key] else null
    }

    function KeyOf(handle: Slot?): Option<string> {
      if handle == null then None else Some(handle.key)
    }

    ghost predicate Ready()
      reads this, affinity
    {
      Valid() && (affinity != null ==> Affinities.Inv(affinity.Now()))
    }

    ghost predicate Keyed()
      reads this
    {
      forall k :: k in slots ==> slots[k].key == k
    }

    /** Take a lease on `key`. */
    method Lease(key: string) returns (handle: Slot)
      requires Keyed() && key in slots
      modifies slots[key]
      ensures handle == slots[key] && handle.key == key
      ensures Flights() == AfterLease(old(Flights()), Some(key))
    {
      hide PoolCore.Inv;
      handle := slots[key];
      handle.inFlight := handle.inFlight + 1;
      forall k: string | k in slots ensures slots[k].inFlight == old(slots[k].inFlight) + if k == key then 1 else 0 {
        assert slots[k].key == k && slots[key].key == key;
      }
    }

    /** The pinned account, while it may serve this attempt. Looking it up extends the pin. */
    method PinnedKey(tried: set<string>, model: string, session: string, now: real) returns (key: Option<string>)
      requires Ready()
      modifies affinity
      ensures Ready() && (key.Some? ==> key.value in slots)
      ensures key == if old(UsesPin(session, tried, model, now)) then old(PinOf(session, now)) else None
      ensures affinity != null ==> affinity.Now() == old(AfterLookup(affinity.Now(), session, now))
    {
      if affinity == null {
        return None;
      }
      StepKeeps(affinity.Now(), Lookup(session, now), AfterLookup(affinity.Now(), session, now));
      if session == "" {
        return None;
      }
      key := affinity.LookUp(session, now);
      if key.Some? && !PinUsable(Now(), key.value, tried, model, now) {
        key := None;
      }
    }

    method Remember(session: string, key: string, now: real)
      requires affinity != null ==> Affinities.Inv(affinity.Now())
      modifies affinity
      ensures affinity != null ==> Affinities.Inv(affinity.Now())
      ensures affinity != null ==> Pinned(old(affinity.Now()), session, key, now, affinity.Now())
    {
      if affinity != null {
        affinity.PinTo(session, key, now);
        StepKeeps(old(affinity.Now()), Pin(session, key, now), affinity.Now());
      }
    }

    /** The account that serves this attempt, leased; null when there is none. */
    method AcquireSlot(tried: set<string>, model: string, session: string, advance: bool, now: real)
      returns (handle: Slot?)
      requires Ready()
      modifies this`rr, this`swrr, affinity, slots.Values
      ensures Ready()
      ensures var (key, after) := Acquire(old(Now()), old(PinOf(session, now)), tried, model, now, old(Flights()),
                                          advance);
              Now() == after && key == KeyOf(handle) && (key.Some? ==> handle == SlotOf(key.value))
      ensures Flights() == AfterLease(old(Flights()), KeyOf(handle))
      ensures affinity != null ==>
                Remembers(old(affinity.Now()), session, now, order != [], old(UsesPin(session, tried, model, now)),
                          KeyOf(handle), affinity.Now())
    {
      hide PoolCore.Inv, Drawn, Cooling, PinUsable, PinOf, Pinned, AfterLookup, Affinities.Inv, Affinity.Now;
      ghost var c, flights, pin := Now(), Flights(), PinOf(session, now);
      AcquireKeepsInv(c, pin, tried, model, now, flights, advance);
      if order == [] {
        EmptyPool(c, pin, tried, model, now, flights, advance);
        return null;
      }
      var key := PinnedKey(tried, model, session, now);
      if key.Some? {
        handle := Lease(key.value);
        return;
      }
      handle := DrawSlot(tried, model, session, advance, now);
    }

    method DrawSlot(tried: set<string>, model: string, session: string, advance: bool, now: real)
      returns (handle: Slot?)
      requires Ready()
      modifies this`rr, this`swrr, affinity, slots.Values
      ensures affinity != null ==> Affinities.Inv(affinity.Now())
      ensures var (key, after) := Drawn(old(Now()), tried, model, now, old(Flights()), advance);
              Now() == after && key == KeyOf(handle) && (key.Some? ==> handle == SlotOf(key.value))
      ensures Flights() == AfterLease(old(Flights()), KeyOf(handle))
      ensures affinity != null ==>
                if handle == null then affinity.Now() == old(affinity.Now())
                else Pinned(old(affinity.Now()), session, handle.key, now, affinity.Now())
    {
      hide PoolCore.Inv, Drawn, PinOf, Pinned, AfterLookup, Affinities.Inv, Affinity.Now, Now;
      FlightsOfSlots();
      DrawnIsLive(Now(), tried, model, now, Flights(), advance);
      var key := DrawAny(tried, model, advance, now);
      if key.None? {
        return null;
      }
      handle := Lease(key.value);
      Remember(session, key.value, now);
    }

    ghost predicate UsesPin(session: string, tried: set<string>, model: string, now: real)
      reads this, affinity
    {
      PinOf(session, now).Some? && PinUsable(Now(), PinOf(session, now).value, tried, model, now)
    }

    method Release(handle: Slot)
      modifies handle`inFlight
      ensures handle.inFlight == if old(handle.inFlight) > 0 then old(handle.inFlight) - 1 else 0
    {
      if handle.inFlight > 0 {
        handle.inFlight := handle.inFlight - 1;
      }
    }

    // ---- outcomes ----

    method MarkModelBlocked(key: string, model: string, delay: real, now: real)
      modifies this`blocked
      ensures Now() == MarkBlocked(old(Now()), key, model, delay, now)
    {
      var seconds := if delay < COOLDOWN then COOLDOWN else delay;
      seconds := if seconds > BLOCK_MAX then BLOCK_MAX else seconds;
      blocked := blocked[(key, model) := now + seconds];
      PurgeBlocks((key, model), now);
    }

    /** Drop the expired blocks of others, so the map cannot grow without bound. */
    method PurgeBlocks(just: Block, now: real)
      modifies this`blocked
      ensures blocked == Purged(old(blocked), just, now)
    {
      ghost var marked := blocked;
      var rest := blocked.Keys;
      while rest != {}
        invariant rest <= marked.Keys
        invariant blocked.Keys == set b | b in marked && (b in rest || b == just || marked[b] > now)
        invariant forall b :: b in blocked ==> blocked[b] == marked[b]
      {
        var b := Pick(rest);
        if b != just && b in blocked && blocked[b] <= now {
          blocked := blocked - {b};
        }
        rest := rest - {b};
      }
    }

    /** A quota answer blocks the model on the account; any other failure cools the credential itself. */
    method MarkOutcome(handle: Slot, model: string, reset: Option<real>, now: real)
      modifies this`blocked, this`failed
      ensures Now() == AfterFailure(old(Now()), handle.key, handle.generation, model, reset, now)
    {
      if reset.Some? && model != "" {
        MarkModelBlocked(handle.key, model, reset.value, now);
      } else if handle.key in slots && slots[handle.key].generation == handle.generation {
        failed := failed[handle.key := now + COOLDOWN];
      }
    }

    /** Drop the conversation's pin if it still names the account that just failed. */
    method ForgetPin(session: string, failedKey: string, now: real)
      requires Ready()
      modifies affinity
      ensures Ready()
      ensures affinity != null ==> affinity.Now() == old(AfterForget(affinity.Now(), session, failedKey, now))
    {
      if affinity == null || session == "" {
        return;
      }
      StepKeeps(affinity.Now(), Forget(session), affinity.Now().(entries := affinity.entries - {session}));
      var pinned := affinity.PinnedTo(session, now);
      if pinned == Some(failedKey) {
        affinity.ForgetSession(session);
      }
    }

    // ---- reload ----

    /** Install a new credential set. The idle slots it drops are handed back to be closed. */
    method UpdateSlots(next: map<string, int>) returns (retired: set<Slot>)
      requires Valid()
      modifies this
      ensures Valid() && affinity == old(affinity)
      ensures Updated(old(Now()), next, Now())
      ensures Rebuilt(old(slots), next, slots, next.Keys)
      ensures forall k :: k in next && !Same(old(slots), next, k) ==> fresh(slots[k])
      ensures retired == Idle(old(slots), next, old(slots).Keys)
    {
      hide PoolCore.Inv, Numbered, Sorted, Distinct, KeyLess, Idle, Restricted, Updated, Stays, Idents;
      ghost var c := Now();
      var kept, replaced := BuildSlots(next);
      var dropped := IdleOutside(next);
      retired := replaced + dropped;
      IdleParts(next);
      Install(next, kept, c);
    }

    method Install(next: map<string, int>, kept: map<string, Slot>, ghost c: Core)
      requires PoolCore.Inv(c) && Now() == c.(generation := generation)
      requires Built(c, slots, next, kept, next.Keys, generation)
      modifies this
      ensures Valid() && affinity == old(affinity) && slots == kept && Updated(c, next, Now())
    {
      hide PoolCore.Inv, Numbered, Sorted, Distinct, KeyLess, Restricted, Updated, Stays, Idents;
      slots := kept;
      ghost var mid := Now();
      Restrict(next);
      RestrictedSame(mid, c, next, Now());
      Reloaded(c, next);
    }

    lemma Reloaded(c: Core, next: map<string, int>)
      requires PoolCore.Inv(c) && Keyed()
      requires Numbered(c, next, Idents(slots), next.Keys, generation)
      requires Restricted(c, next, order, rr, failed, blocked, hard, swrr) && strategy == c.strategy
                 && weights == c.weights
      ensures Valid() && Updated(c, next, Now())
    {
      hide PoolCore.Inv, Numbered, Sorted, Distinct, KeyLess;
      UpdateKeepsInv(c, next, Now());
    }

    lemma IdleParts(next: map<string, int>)
      ensures Idle(slots, next, slots.Keys) == Idle(slots, next, next.Keys) + Idle(slots, next, slots.Keys - next.Keys)
    {
    }

    /** The new order, and everything remembered about keys that are gone dropped. */
    method Restrict(next: map<string, int>)
      modifies this`order, this`rr, this`failed, this`blocked, this`hard, this`swrr
      ensures Restricted(old(Now()), next, order, rr, failed, blocked, hard, swrr)
    {
      order := OrderedKeys(next.Keys);
      hide Sorted, Distinct, KeyLess, Idents, OnlyKeys, OnlyBlocks;
      failed, swrr := OnlyKeys(failed, next.Keys), OnlyKeys(swrr, next.Keys);
      blocked := OnlyBlocks(blocked, next.Keys);
      hard := set b | b in hard && b.0 in next;
      rr := if order == [] then 0 else rr % |order|;
    }

    method BuildSlots(next: map<string, int>) returns (built: map<string, Slot>, replaced: set<Slot>)
      requires Keyed()
      modifies this`generation
      ensures built.Keys == next.Keys && Built(old(Now()), slots, next, built, next.Keys, generation)
      ensures forall k :: k in built && !Same(slots, next, k) ==> fresh(built[k])
      ensures replaced == Idle(slots, next, next.Keys)
    {
      hide *;
      ghost var c := Now();
      built, replaced := map[], {};
      var rest := next.Keys;
      NoneBuilt(c, next);
      while rest != {}
        invariant Keyed() && rest <= next.Keys && built.Keys == next.Keys - rest
        invariant Built(c, slots, next, built, next.Keys - rest, generation)
        invariant forall k :: k in built && !Same(slots, next, k) ==> fresh(built[k])
        invariant replaced == Idle(slots, next, next.Keys - rest)
      {
        var key := Pick(rest);
        ghost var done := next.Keys - rest;
        assert next.Keys - (rest - {key}) == done + {key};
        IdleGrows(slots, next, done, key);
        ghost var g := generation;
        var slot, displaced := NextSlot(next, key);
        BuiltGrows(c, next, built, done, g, key, slot);
        built := built[key := slot];
        replaced := replaced + displaced;
        rest := rest - {key};
      }
      assert next.Keys - rest == next.Keys;
    }

    method NextSlot(next: map<string, int>, key: string) returns (slot: Slot, displaced: set<Slot>)
      requires Keyed() && key in next
      modifies this`generation
      ensures Keyed() && slot.key == key && slot.provider == next[key] && displaced == Idle(slots, next, {key})
      ensures Same(slots, next, key) ==> slot == slots[key] && generation == old(generation)
      ensures !Same(slots, next, key) ==>
                fresh(slot) && slot.inFlight == 0 && generation == old(generation) + 1 && slot.generation == generation
    {
      displaced := {};
      if key in slots && slots[key].provider == next[key] {
        slot := slots[key];
      } else {
        if key in slots && slots[key].inFlight == 0 {
          displaced := {slots[key]};
        }
        generation := generation + 1;
        slot := new Slot(key, next[key], generation);
      }
    }

    lemma NoneBuilt(c: Core, next: map<string, int>)
      requires c == Now()
      ensures Built(c, slots, next, map[], next.Keys - next.Keys, generation)
                && Idle(slots, next, next.Keys - next.Keys) == {}
    {
    }

    lemma BuiltGrows(c: Core, next: map<string, int>, built: map<string, Slot>, keys: set<string>, g: nat,
                     key: string, slot: Slot)
      requires keys <= next.Keys && key in next && key !in keys && Built(c, slots, next, built, keys, g) && Keyed()
      requires slot.key == key && slot.provider == next[key]
      requires if Same(slots, next, key) then slot == slots[key] && generation == g
               else slot.inFlight == 0 && generation == g + 1 == slot.generation
      ensures Built(c, slots, next, built[key := slot], keys + {key}, generation)
    {
      hide Numbered, Idents, Rebuilt;
      NumberedGrows(c, next, Idents(built), keys, g, key);
      IdentsGrow(built, key, slot);
      RebuiltGrows(slots, next, built, keys, key, slot);
      LiveAt(slots, key);
    }

    /** The idle slots whose key is no longer wanted. */
    method IdleOutside(next: map<string, int>) returns (dropped: set<Slot>)
      ensures dropped == Idle(slots, next, slots.Keys - next.Keys)
    {
      dropped := {};
      var rest := slots.Keys - next.Keys;
      while rest != {}
        invariant rest <= slots.Keys - next.Keys
        invariant dropped == Idle(slots, next, slots.Keys - next.Keys - rest)
      {
        var key := Pick(rest);
        IdleGrows(slots, next, slots.Keys - next.Keys - rest, key);
        assert slots.Keys - next.Keys - (rest - {key}) == slots.Keys - next.Keys - rest + {key};
        if slots[key].inFlight == 0 {
          dropped := dropped + {slots[key]};
        }
        rest := rest - {key};
      }
      assert slots.Keys - next.Keys - rest == slots.Keys - next.Keys;
    }

    method OrderedKeys(keys: set<string>) returns (ordered: seq<string>)
      ensures Sorted(ordered, KeyLess()) && Distinct(ordered) && forall k :: k in ordered <==> k in keys
    {
      var given: seq<string> := [];
      var rest := keys;
      while rest != {}
        invariant rest <= keys && Distinct(given)
        invariant forall k :: k in given <==> k in keys && k !in rest
      {
        var k := Pick(rest);
        given := given + [k];
        rest := rest - {k};
      }
      var a := new string[|given|](i requires 0 <= i < |given| => given[i]);
      assert a[..] == given;
      InsertionSort(a, KeyLess());
      KeyOrder();
      SortFacts(given, KeyLess());
      ordered := a[..];
      StaysDistinct(given, ordered);
    }

    // ---- failover ----

    /**
     What others may do while the request does not hold the lock: nothing if there are none, other requests
     anything that leaves the pool well formed, and the administrator also any number of reloads and new
     manual exclusions, as long as no account outside `known` is ever loaded.
     */
    method Elsewhere(others: Meanwhile, known: set<string>)
      requires Ready() && slots.Keys <= known
      modifies this, affinity, slots.Values
      ensures Ready() && affinity == old(affinity) && slots.Keys <= known
      ensures fresh(slots.Values - old(slots.Values))
      ensures !others.Reloads? ==> slots == old(slots) && hard == old(hard)
      ensures others.Nobody? ==> Now() == old(Now()) && Flights() == old(Flights())
      ensures others.Nobody? && affinity != null ==> affinity.Now() == old(affinity.Now())
    {
      hide PoolCore.Inv, Affinities.Inv, OnlyKeys, Idents, Updated, Rebuilt, Idle;
      if others.Nobody? {
        return;
      }
      OtherMarks();
      OtherPins();
      OtherLeases();
      if others.Reloads? {
        OtherReloads(known);
      }
    }

    method OtherReloads(known: set<string>)
      requires Ready() && slots.Keys <= known
      modifies this
      ensures Ready() && affinity == old(affinity) && slots.Keys <= known
      ensures fresh(slots.Values - old(slots.Values))
    {
      ghost var before := slots.Values;
      var more: bool := *;
      var rounds: nat := *;
      while more && rounds > 0
        invariant Ready() && affinity == old(affinity) && slots.Keys <= known
        invariant fresh(slots.Values - before)
      {
        hide PoolCore.Inv, Affinities.Inv, Updated;
        var others: map<string, int> := *;
        ghost var was := slots;
        var retired := UpdateSlots(map k | k in others && k in known :: others[k]);
        var blocks: set<Block> := *;
        SetHardBlocks(blocks);
        more, rounds := *, rounds - 1;
      }
    }

    method OtherMarks()
      requires Valid()
      modifies this`rr, this`failed, this`blocked, this`strategy, this`weights, this`swrr
      ensures Valid()
    {
      ghost var c := Now();
      var cursor: nat := *;
      var cooled: map<string, real> := *;
      var credit: map<string, int> := *;
      var given: map<string, int> := *;
      rr := if order == [] then 0 else cursor % |order|;
      failed, swrr := OnlyKeys(cooled, slots.Keys), OnlyKeys(credit, slots.Keys);
      blocked, strategy := *, *;
      weights := PositiveOnly(given);
      hide PoolCore.Inv, Idents;
      InvAgain(c, Now());
    }

    method OtherPins()
      requires affinity != null ==> Affinities.Inv(affinity.Now())
      modifies affinity
      ensures affinity != null ==> Affinities.Inv(affinity.Now())
    {
      var pins: map<string, Entry> := *;
      if affinity != null && |pins| <= LIMIT && "" !in pins {
        affinity.enabled, affinity.entries := *, pins;
      }
    }

    method OtherLeases()
      modifies slots.Values
    {
      var rest := slots.Keys;
      while rest != {}
        invariant rest <= slots.Keys
      {
        var key := Pick(rest);
        slots[key].inFlight := *;
        rest := rest - {key};
      }
    }

    /**
     Run a request with failover; a completion and a stream share this loop, but a stream that opened
     keeps its lease. `script(i)` is what the i-th upstream call comes to, `clock(i)` when it is made;
     `known` are the accounts that may be loaded at any time during the request.
     */
    method Failover(streaming: bool, model: string, session: string, script: nat -> Attempt, clock: nat -> real,
                    others: Meanwhile, known: set<string>)
      returns (answer: Answer, asked: seq<string>, held: Slot?, ghost cores: seq<Core>)
      requires Ready() && slots.Keys <= known
      modifies this, affinity, slots.Values
      ensures Ready() && affinity == old(affinity)
      ensures slots.Keys <= known && fresh(slots.Values - old(slots.Values))
      ensures EndsAmong(answer, asked, script, known, OpenSet(slots, hard, model))
      ensures !others.Reloads? ==> slots == old(slots) && hard == old(hard)
      ensures !others.Reloads? ==> Ends(answer, asked, script, OpenSet(slots, hard, model))
      ensures held != null <==> streaming && answer.Done?
      ensures held != null ==> asked != [] && held.key == asked[|asked| - 1]
      ensures held != null && !others.Reloads? ==> held.key in slots && held == slots[held.key]
      ensures others.Nobody? ==>
                Flights() == if held == null then old(Flights()) else AfterLease(old(Flights()), Some(held.key))
      ensures others.Nobody? ==>
                && Follows(old(Now()), old(PinOf(session, clock(0))), model, script, clock, old(Flights()), asked,
                           cores)
                && Now() == cores[|asked|]
      ensures others.Nobody? && asked == [] ==>
                Finds(old(Now()), old(PinOf(session, clock(0))), {}, model, clock(0), old(Flights()), true, None, Now())
    {
      hide *;
      asked, held, cores := [], null, [Now()];
      var advance := true;
      ghost var open := OpenSet(slots, hard, model);
      ghost var c, first, flights := Now(), PinOf(session, clock(0)), Flights();
      NoneTried(script, known);
      NoneWithin(open);
      FollowsNone(c, first, model, script, clock, flights);
      StartsUnder(session, clock(0));
      var end: Option<Answer> := None;
      while end.None?
        invariant Ready() && affinity == old(affinity) && slots.Keys <= known
        invariant fresh(slots.Values - old(slots.Values))
        invariant !others.Reloads? ==> slots == old(slots) && hard == old(hard) && Within(asked, open)
        invariant end.None? ==> Tried(asked, script, known) && held == null && (advance <==> asked == [])
        invariant end.Some? ==> EndsAmong(end.value, asked, script, known, OpenSet(slots, hard, model))
        invariant held != null <==> streaming && end.Some? && end.value.Done?
        invariant held != null ==> asked != [] && held.key == asked[|asked| - 1]
        invariant held != null && !others.Reloads? ==> held.key in slots && held == slots[held.key]
        invariant others.Nobody? ==>
                    Flights() == if held == null then flights else AfterLease(flights, Some(held.key))
        invariant |cores| == |asked| + 1
        invariant others.Nobody? ==>
                    Follows(c, first, model, script, clock, flights, asked, cores) && Now() == cores[|asked|]
        invariant others.Nobody? && end.None? ==> PicksUnder(first, asked, session, clock(|asked|))
        invariant others.Nobody? && asked == [] ==> Now() == c
        invariant others.Nobody? && end.Some? && asked == [] ==>
                    Finds(c, first, {}, model, clock(0), flights, true, None, Now())
        decreases end.None?, |known - Members(asked)|
      {
        var handle;
        handle, end, held := TryNext(asked, streaming, model, session, script(|asked|), advance, clock(|asked|),
                                     clock(|asked| + 1), others, known, first);
        advance := false;
        if handle == null {
          GivesUp(asked, script, known, OpenSet(slots, hard, model));
        } else {
          AskedGrows(asked, script, known, handle.key);
          if !others.Reloads? {
            WithinGrows(asked, open, handle.key);
          }
          if others.Nobody? {
            FollowsOn(c, first, model, script, clock, flights, asked, cores, handle.key, Now());
          }
          asked, cores := asked + [handle.key], cores + [Now()];
          if end.Some? {
            LastDecides(asked, script, known, OpenSet(slots, hard, model));
          }
        }
      }
      answer := end.value;
      if !others.Reloads? {
        EndsFixed(answer, asked, script, known, open);
      }
    }

    /** Pick one more account and run its turn, or give up if there is none. */
    method TryNext(asked: seq<string>, streaming: bool, model: string, session: string, attempt: Attempt, advance: bool,
                   now: real, later: real, others: Meanwhile, known: set<string>, ghost first: Option<string>)
      returns (handle: Slot?, end: Option<Answer>, held: Slot?)
      requires Ready() && slots.Keys <= known && (advance <==> asked == [])
      modifies this, affinity, slots.Values
      ensures Ready() && affinity == old(affinity) && slots.Keys <= known
      ensures fresh(slots.Values - old(slots.Values))
      ensures !others.Reloads? ==> slots == old(slots) && hard == old(hard)
      ensures handle == null ==>
                end == Some(if asked == [] then Unavailable else Exhausted)
                  && OpenSet(slots, hard, model) <= Members(asked)
      ensures handle != null ==> handle.key in known && handle.key !in Members(asked) && end == Verdict(attempt)
      ensures handle != null && !others.Reloads? ==> handle.key in OpenSet(old(slots), old(hard), model)
      ensures held == if handle != null && streaming && end.Some? && end.value.Done? then handle else null
      ensures held != null && !others.Reloads? ==> held.key in slots && held == slots[held.key]
      ensures others.Nobody? ==>
                Flights() == if held == null then old(Flights()) else AfterLease(old(Flights()), Some(held.key))
      ensures others.Nobody? && handle == null ==> Now() == old(Now())
      ensures others.Nobody? && handle == null && asked == [] && old(PicksUnder(first, asked, session, now)) ==>
                Finds(old(Now()), first, {}, model, now, old(Flights()), true, None, Now())
      ensures others.Nobody? && handle != null && old(PicksUnder(first, asked, session, now)) ==>
                PicksNext(first, asked, handle.key, model, attempt, now, later, old(Flights()), old(Now()), Now())
      ensures others.Nobody? && handle != null && end.None? ==> PicksUnder(first, asked + [handle.key], session, later)
    {
      hide Pool.Now, Pool.Flights, Pool.Ready, OpenSet, Finds, AfterLease, AfterReturn, AfterForget, Hit, Retryable,
           Affinity.Now, AfterCall, Verdict;
      held := null;
      ghost var c, pin, flights := Now(), PinOf(session, now), Flights();
      handle := NextAccount(Members(asked), model, session, advance, now);
      ghost var found := Now();
      if handle == null {
        FoundIsOpen(c, pin, Members(asked), model, now, flights, advance, None, found);
        assert asked == [] ==> Members(asked) == {};
        return null, Some(if asked == [] then Unavailable else Exhausted), null;
      }
      LeaseReturned(flights, handle.key);
      ghost var v, pinned := if affinity == null then None else Some(affinity.Now()), PinOf(session, later);
      assert PinnedAtMost(session, handle.key) ==> pinned in {None, Some(handle.key)};
      end, held := CallAccount(handle, attempt, streaming, model, session, later, others, known);
      if others.Nobody? {
        PickedNext(first, c, pin, asked, handle.key, model, attempt, now, later, flights, found, Now());
        if v.Some? && end.None? && handle.key != "" {
          OnlyRetryable(attempt);
          PinCleared(v.value, session, handle.key, later);
        }
      }
    }

    lemma StartsUnder(session: string, now: real)
      ensures PicksUnder(PinOf(session, now), [], session, now)
    {
    }

    /** The pin this step finds is the request's own: at its start the one at entry, and none after a failure. */
    ghost predicate PicksUnder(first: Option<string>, asked: seq<string>, session: string, now: real)
      reads this, affinity
    {
      if asked == [] then PinOf(session, now) == first
      else asked[|asked| - 1] != "" ==> PinOf(session, now) == None
    }

    /**
     One account's turn. The upstream call runs without the lock; its lease goes back unless a stream keeps
     it, a failure that is the account's is marked, and then the conversation's pin to it is dropped. Others
     intervene between any two of these steps.
     */
    method CallAccount(handle: Slot, attempt: Attempt, streaming: bool, model: string, session: string, now: real,
                       others: Meanwhile, known: set<string>)
      returns (end: Option<Answer>, held: Slot?)
      requires Ready() && slots.Keys <= known && handle.key in slots && handle == slots[handle.key]
      modifies this, affinity, slots.Values
      ensures Ready() && affinity == old(affinity) && slots.Keys <= known
      ensures fresh(slots.Values - old(slots.Values))
      ensures !others.Reloads? ==> slots == old(slots) && hard == old(hard)
      ensures end == Verdict(attempt)
      ensures others.Nobody? ==>
                && handle.key in old(Now()).live && Now() == AfterCall(old(Now()), handle.key, model, attempt, now)
                && Flights() == (if held != null then old(Flights()) else AfterReturn(old(Flights()), handle.key))
      ensures others.Nobody? && affinity != null ==>
                affinity.Now() == if Retryable(attempt)
                                  then old(AfterForget(affinity.Now(), session, handle.key, now))
                                  else old(affinity.Now())
      ensures held == if streaming && end.Some? && end.value.Done? then handle else null
    {
      InBook(handle, model, attempt, now);
      hide Pool.Ready, Pool.Valid, Pool.Now, Pool.Flights, AfterForget, AfterFailure, AfterReturn, Affinity.Now,
        AfterCall;
      CallUpstream(handle, streaming && attempt.result.Served?, others, known);
      held := null;
      if attempt.result.Served? {
        held := if streaming then handle else null;
        return Some(Done(attempt.result.body)), held;
      }
      if attempt.goneBefore || attempt.result.clientAbort {
        return Some(Aborted), null;
      }
      if attempt.result.rejected {
        return Some(Rejected), null;
      }
      Settle(handle, model, session, attempt.result.reset, now, others, known);
      end := if attempt.goneAfter then Some(Aborted) else None;
    }

    lemma InBook(handle: Slot, model: string, attempt: Attempt, now: real)
      requires handle.key in slots && handle == slots[handle.key]
      ensures handle.key in Now().live
      ensures AfterCall(Now(), handle.key, model, attempt, now) ==
                if Retryable(attempt)
                then AfterFailure(Now(), handle.key, handle.generation, model, attempt.result.reset, now) else Now()
    {
      LiveAt(slots, handle.key);
    }

    method CallUpstream(handle: Slot, keep: bool, others: Meanwhile, known: set<string>)
      requires Ready() && slots.Keys <= known && handle.key in slots && handle == slots[handle.key]
      modifies this, affinity, slots.Values
      ensures Ready() && affinity == old(affinity) && slots.Keys <= known
      ensures fresh(slots.Values - old(slots.Values))
      ensures !others.Reloads? ==> slots == old(slots) && hard == old(hard)
      ensures others.Nobody? ==>
                && Now() == old(Now())
                && Flights() == (if keep then old(Flights()) else AfterReturn(old(Flights()), handle.key))
      ensures others.Nobody? && affinity != null ==> affinity.Now() == old(affinity.Now())
    {
      hide *;
      Elsewhere(others, known);
      if !keep {
        GiveBack(handle);
      }
      Elsewhere(others, known);
    }

    method GiveBack(handle: Slot)
      requires Ready()
      modifies handle`inFlight
      ensures Ready() && Now() == old(Now())
      ensures handle.key in slots && handle == slots[handle.key] ==>
                Flights() == AfterReturn(old(Flights()), handle.key)
    {
      hide PoolCore.Inv, Affinities.Inv;
      Release(handle);
    }

    method Settle(handle: Slot, model: string, session: string, reset: Option<real>, now: real, others: Meanwhile,
                  known: set<string>)
      requires Ready() && slots.Keys <= known
      modifies this, affinity, slots.Values
      ensures Ready() && affinity == old(affinity) && slots.Keys <= known
      ensures fresh(slots.Values - old(slots.Values))
      ensures !others.Reloads? ==> slots == old(slots) && hard == old(hard)
      ensures others.Nobody? ==>
                && Now() == AfterFailure(old(Now()), handle.key, handle.generation, model, reset, now)
                && Flights() == old(Flights())
      ensures others.Nobody? && affinity != null ==>
                affinity.Now() == old(AfterForget(affinity.Now(), session, handle.key, now))
    {
      hide *;
      Report(handle, model, reset, now);
      Elsewhere(others, known);
      ForgetPin(session, handle.key, now);
      Elsewhere(others, known);
    }

    method NextAccount(tried: set<string>, model: string, session: string, advance: bool, now: real)
      returns (handle: Slot?)
      requires Ready()
      modifies this`rr, this`swrr, affinity, slots.Values
      ensures Ready()
      ensures handle == null ==> OpenSet(slots, hard, model) <= tried
      ensures handle != null ==> handle.key in OpenSet(slots, hard, model) - tried
      ensures handle != null ==> handle.key in slots && handle == slots[handle.key]
      ensures Flights() == if handle == null then old(Flights()) else AfterLease(old(Flights()), Some(handle.key))
      ensures Finds(old(Now()), old(PinOf(session, now)), tried, model, now, old(Flights()), advance, KeyOf(handle),
                    Now())
      ensures handle != null && handle.key != "" ==> PinnedAtMost(session, handle.key)
    {
      hide Now, Flights, Ready, PinOf, OpenSet, Finds, AfterLease, PinnedAtMost;
      ghost var c, pin, flights := Now(), PinOf(session, now), Flights();
      handle := Grab(tried, model, session, advance, now);
      FoundIsOpen(c, pin, tried, model, now, flights, advance, KeyOf(handle), Now());
      StillOpen(c, Now(), tried, model);
    }

    /** What is open in the bookkeeping is open in the slot table. */
    lemma StillOpen(c: Core, after: Core, tried: set<string>, model: string)
      requires after == Now() && after.live == c.live && after.hard == c.hard
      ensures forall k :: k in OpenSet(slots, hard, model) <==> k in c.live && (k, model) !in c.hard
    {
    }

    method Grab(tried: set<string>, model: string, session: string, advance: bool, now: real) returns (handle: Slot?)
      requires Ready()
      modifies this`rr, this`swrr, affinity, slots.Values
      ensures Ready()
      ensures handle != null ==> handle.key in slots && handle == slots[handle.key]
      ensures Flights() == if handle == null then old(Flights()) else AfterLease(old(Flights()), Some(handle.key))
      ensures Finds(old(Now()), old(PinOf(session, now)), tried, model, now, old(Flights()), advance, KeyOf(handle),
                    Now())
      ensures handle != null && handle.key != "" ==> PinnedAtMost(session, handle.key)
    {
      ghost var c, pin, flights, uses := Now(), PinOf(session, now), Flights(), UsesPin(session, tried, model, now);
      ghost var v := if affinity == null then None else Some(affinity.Now());
      assert uses ==> Acquire(c, pin, tried, model, now, flights, advance).0 == pin;
      assert flights.Keys == c.live.Keys;
      handle := AcquireSlot(tried, model, session, advance, now);
      hide Acquire, PoolCore.Inv, Affinities.Inv, Remembers, UsesPin, AfterLease, PinUsable;
      if handle != null && handle.key != "" && v.Some? {
        forall t ensures PinOf(session, t) in {None, Some(handle.key)} {
          OnlyPin(v.value, session, now, order != [], uses, handle.key, affinity.Now(), t);
        }
      }
    }

    /** The conversation is pinned to that account, or to none. */
    ghost predicate PinnedAtMost(session: string, key: string)
      reads this, affinity
    {
      forall t :: PinOf(session, t) in {None, Some(key)}
    }

    /** A failed account is marked. */
    method Report(handle: Slot, model: string, reset: Option<real>, now: real)
      requires Ready()
      modifies this`failed, this`blocked
      ensures Ready()
      ensures Now() == AfterFailure(old(Now()), handle.key, handle.generation, model, reset, now)
      ensures Flights() == old(Flights())
    {
      hide PoolCore.Inv, MarkBlocked, MarkFailed, Affinities.Inv;
      MarksKeepInv(Now(), handle.key, model, handle.generation, if reset.Some? then reset.value else 0.0, now);
      MarkOutcome(handle, model, reset, now);
    }
  }
}
