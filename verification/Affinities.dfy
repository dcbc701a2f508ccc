/** The bounded, idle-limited memory of which account serves which conversation. */
module Affinities {
  import opened Chunks
  import opened Seqs

  const LIMIT: nat := 4096
  const DEFAULT_TTL := 3600.0

  datatype Entry = Entry(slotKey: string, expires: real)

  datatype View = View(enabled: bool, ttl: real, entries: map<string, Entry>)

  predicate Live(v: View, session: string, now: real) {
    v.enabled && session != "" && session in v.entries && now < v.entries[session].expires
  }

  /** The slot a session is pinned to at this moment. */
  function Hit(v: View, session: string, now: real): Option<string> {
    if Live(v, session, now) then Some(v.entries[session].slotKey) else None
  }

  ghost predicate Inv(v: View) {
    v.ttl > 0.0 && "" !in v.entries && |v.entries| <= LIMIT
  }

  // ---- the operations as state changes ----

  function AfterLookup(v: View, session: string, now: real): View {
    if !v.enabled || session == "" || session !in v.entries then v
    else if Live(v, session, now) then v.(entries := v.entries[session := v.entries[session].(expires := now + v.ttl)])
    else v.(entries := v.entries - {session})
  }

  function AfterConfigure(v: View, enabled: bool, ttl: real): View {
    View(enabled, if ttl <= 0.0 then DEFAULT_TTL else ttl, if enabled then v.entries else map[])
  }

  function Unexpired(entries: map<string, Entry>, now: real): map<string, Entry> {
    map s | s in entries && now < entries[s].expires :: entries[s]
  }

  /**
   What eviction may do: drop everything expired, and beyond that only what is needed to make room,
   soonest expiry first. Which of several equally old entries goes is left open.
   */
  ghost predicate Evicted(before: map<string, Entry>, after: map<string, Entry>, now: real) {
    var live := Unexpired(before, now);
    && after.Keys <= live.Keys && (forall s :: s in after ==> after[s] == before[s])
    && |after| < LIMIT
    && (if |live| < LIMIT then after == live else |after| == LIMIT - 1)
    && (forall s, t :: s in live && s !in after && t in after ==> before[s].expires <= before[t].expires)
  }

  /** What is left once room was made, if room was needed. */
  ghost predicate Kept(v: View, kept: map<string, Entry>, now: real) {
    if |v.entries| >= LIMIT then Evicted(v.entries, kept, now) else kept == v.entries
  }

  ghost predicate Pinned(v: View, session: string, slotKey: string, now: real, w: View) {
    if session == "" || slotKey == "" || !v.enabled then w == v
    else
      && w.enabled && w.ttl == v.ttl
      && exists kept :: Kept(v, kept, now) && w.entries == kept[session := Entry(slotKey, now + v.ttl)]
  }

  /**
   A pin always takes hold and the store stays bounded. No other conversation changes its account,
   and none loses it unless the store is full of unexpired pins.
   */
  lemma PinTakesHold(v: View, session: string, slotKey: string, now: real, w: View)
    requires Inv(v) && v.enabled && session != "" && slotKey != "" && Pinned(v, session, slotKey, now, w)
    ensures Inv(w) && Hit(w, session, now) == Some(slotKey)
    ensures forall s :: s != session && Hit(w, s, now).Some? ==> Hit(w, s, now) == Hit(v, s, now)
    ensures |Unexpired(v.entries, now)| < LIMIT ==> forall s :: s != session ==> Hit(w, s, now) == Hit(v, s, now)
  {
    var kept :| Kept(v, kept, now) && w.entries == kept[session := Entry(slotKey, now + v.ttl)];
    KeptIsSmall(v, kept, now);
    hide *;
    Others(v, kept, session, slotKey, now, w);
    Added(kept, session, Entry(slotKey, now + v.ttl));
    InvFrom(v, w);
  }

  /** A pin serves exactly until it has idled for the configured span, and each lookup starts that span anew. */
  lemma PinLasts(v: View, session: string, slotKey: string, now: real, w: View, later: real)
    requires Inv(v) && v.enabled && session != "" && slotKey != "" && Pinned(v, session, slotKey, now, w)
    ensures Hit(w, session, later) == if later < now + v.ttl then Some(slotKey) else None
    ensures later < now + v.ttl ==>
              forall t :: Hit(AfterLookup(w, session, later), session, t) == if t < later + v.ttl then Some(slotKey)
                else None
    ensures !(later < now + v.ttl) ==> session !in AfterLookup(w, session, later).entries
  {
    var kept :| Kept(v, kept, now) && w.entries == kept[session := Entry(slotKey, now + v.ttl)];
    hide Kept;
  }

  lemma InvFrom(v: View, w: View)
    requires Inv(v) && w.ttl == v.ttl && "" !in w.entries && |w.entries| <= LIMIT
    ensures Inv(w)
  {
  }

  lemma Added(kept: map<string, Entry>, session: string, entry: Entry)
    requires |kept| < LIMIT && "" !in kept && session != ""
    ensures |kept[session := entry]| <= LIMIT && "" !in kept[session := entry]
  {
    var more := kept[session := entry];
    assert more.Keys == kept.Keys + {session};
    assert |more.Keys| == |more| && |kept.Keys| == |kept|;
  }

  lemma Others(v: View, kept: map<string, Entry>, session: string, slotKey: string, now: real, w: View)
    requires Inv(v) && v.enabled && session != "" && w.enabled && w.ttl == v.ttl
    requires w.entries == kept[session := Entry(slotKey, now + v.ttl)]
    requires kept.Keys <= v.entries.Keys && forall s :: s in kept ==> kept[s] == v.entries[s]
    requires |Unexpired(v.entries, now)| < LIMIT ==> forall s :: s in v.entries && now < v.entries[s].expires ==>
               s in kept
    ensures Hit(w, session, now) == Some(slotKey) && "" !in kept
    ensures forall s :: s != session && Hit(w, s, now).Some? ==> Hit(w, s, now) == Hit(v, s, now)
    ensures |Unexpired(v.entries, now)| < LIMIT ==> forall s :: s != session ==> Hit(w, s, now) == Hit(v, s, now)
  {
    hide Unexpired;
  }

  lemma KeptIsSmall(v: View, kept: map<string, Entry>, now: real)
    requires Inv(v) && Kept(v, kept, now)
    ensures |kept| < LIMIT && kept.Keys <= v.entries.Keys && forall s :: s in kept ==> kept[s] == v.entries[s]
    ensures |Unexpired(v.entries, now)| < LIMIT ==> forall s :: s in v.entries && now < v.entries[s].expires ==>
              s in kept
  {
  }

  // ---- runs: a stored pin is always the last one the history allows ----

  datatype Op =
    | Configure(enabled: bool, ttl: real)
    | Lookup(session: string, now: real)
    | Pin(session: string, slotKey: string, now: real)
    | Forget(session: string)

  ghost predicate Next(v: View, op: Op, w: View) {
    match op
    case Configure(enabled, ttl) => w == AfterConfigure(v, enabled, ttl)
    case Lookup(session, now) => w == AfterLookup(v, session, now)
    case Pin(session, slotKey, now) => Pinned(v, session, slotKey, now, w)
    case Forget(session) => w == if session == "" then v else v.(entries := v.entries - {session})
  }

  ghost predicate Run(views: seq<View>, ops: seq<Op>) {
    && |views| == |ops| + 1 && views[0] == View(false, DEFAULT_TTL, map[])
    && forall i :: 0 <= i < |ops| ==> Next(views[i], ops[i], views[i + 1])
  }

  function Enabled(ops: seq<Op>): bool {
    if ops == [] then false
    else if ops[|ops| - 1].Configure? then ops[|ops| - 1].enabled
    else Enabled(ops[..|ops| - 1])
  }

  /** The assignment the operations alone leave for a session, ignoring expiry and eviction. */
  function Assigned(ops: seq<Op>, session: string): Option<string> {
    if ops == [] then None
    else
      var before := Assigned(ops[..|ops| - 1], session);
      match ops[|ops| - 1]
      case Configure(enabled, _) => if enabled then before else None
      case Lookup(_, _) => before
      case Pin(s, slotKey, _) =>
        if s == session && s != "" && slotKey != "" && Enabled(ops[..|ops| - 1]) then Some(slotKey) else before
      case Forget(s) => if s == session && s != "" then None else before
  }

  /** Over any run: bounded, and no lookup ever returns a forgotten, cleared or superseded account. */
  lemma {:induction false} NoStalePin(views: seq<View>, ops: seq<Op>)
    requires Run(views, ops)
    ensures var v := views[|ops|];
            && Inv(v) && v.enabled == Enabled(ops)
            && forall s :: s in v.entries ==> Assigned(ops, s) == Some(v.entries[s].slotKey)
  {
    if ops != [] {
      var front, last := ops[..|ops| - 1], ops[|ops| - 1];
      var earlier := views[..|ops|];
      assert Run(earlier, front) by {
        forall i | 0 <= i < |front| ensures Next(earlier[i], front[i], earlier[i + 1]) {
          assert Next(views[i], ops[i], views[i + 1]);
        }
      }
      NoStalePin(earlier, front);
      var v, w := views[|ops| - 1], views[|ops|];
      assert Next(v, last, w);
      StepKeeps(v, last, w);
    }
  }

  lemma StepKeeps(v: View, op: Op, w: View)
    requires Inv(v) && Next(v, op, w)
    ensures Inv(w)
    ensures forall s :: s in w.entries ==>
              (s in v.entries && w.entries[s].slotKey == v.entries[s].slotKey
               && (op.Forget? ==> op.session != s) && (op.Configure? ==> op.enabled)
                    && (op.Pin? ==> op.session != s || !v.enabled || op.slotKey == ""))
              || (op.Pin? && op.session == s && w.entries[s].slotKey == op.slotKey && v.enabled && op.slotKey != ""
                  && s != "")
  {
    match op
    case Configure(enabled, ttl) =>
    case Lookup(session, now) =>
      if session in v.entries {
        assert w.entries.Keys <= v.entries.Keys;
        SubsetSize(w.entries.Keys, v.entries.Keys);
        assert |w.entries.Keys| == |w.entries| && |v.entries.Keys| == |v.entries|;
      }
    case Pin(session, slotKey, now) =>
      if v.enabled && session != "" && slotKey != "" {
        PinTakesHold(v, session, slotKey, now, w);
      }
    case Forget(session) =>
      SubsetSize(w.entries.Keys, v.entries.Keys);
      assert |w.entries.Keys| == |w.entries| && |v.entries.Keys| == |v.entries|;
  }

  lemma {:induction false} SubsetSize<T>(a: set<T>, b: set<T>)
    requires a <= b
    ensures |a| <= |b|
  {
    assert b == a + (b - a);
  }

  // ---- the store object ----

  class Affinity {
    var enabled: bool
    var ttl: real
    var entries: map<string, Entry>

    function Now(): View
      reads this
    {
      View(enabled, ttl, entries)
    }

    constructor ()
      ensures Now() == View(false, DEFAULT_TTL, map[])
    {
      enabled, ttl, entries := false, DEFAULT_TTL, map[];
    }

    method Configured(enable: bool, span: real)
      modifies this
      ensures Now() == AfterConfigure(old(Now()), enable, span)
    {
      var chosen := if span <= 0.0 then DEFAULT_TTL else span;
      enabled := enable;
      ttl := chosen;
      if !enable {
        entries := map[];
      }
    }

    method LookUp(session: string, now: real) returns (slotKey: Option<string>)
      modifies this
      ensures slotKey == Hit(old(Now()), session, now)
      ensures Now() == AfterLookup(old(Now()), session, now)
    {
      if session == "" || !enabled || session !in entries {
        return None;
      }
      var entry := entries[session];
      if !(now < entry.expires) {
        entries := entries - {session};
        return None;
      }
      entries := entries[session := entry.(expires := now + ttl)];
      return Some(entry.slotKey);
    }

    method PinnedTo(session: string, now: real) returns (slotKey: Option<string>)
      ensures slotKey == Hit(Now(), session, now)
    {
      if session == "" || !enabled || session !in entries || !(now < entries[session].expires) {
        return None;
      }
      return Some(entries[session].slotKey);
    }

    method PinTo(session: string, slotKey: string, now: real)
      requires Inv(Now())
      modifies this
      ensures Pinned(old(Now()), session, slotKey, now, Now())
    {
      if session == "" || slotKey == "" || !enabled {
        return;
      }
      ghost var v := Now();
      if |entries| >= LIMIT {
        Evict(now);
      }
      ghost var kept := entries;
      entries := entries[session := Entry(slotKey, now + ttl)];
      assert Kept(v, kept, now);
    }

    method ForgetSession(session: string)
      modifies this`entries
      ensures entries == if session == "" then old(entries) else old(entries) - {session}
    {
      if session == "" {
        return;
      }
      entries := entries - {session};
    }

    method Evict(now: real)
      requires "" !in entries
      modifies this`entries
      ensures Evicted(old(entries), entries, now)
    {
      ghost var before := entries;
      ghost var live := Unexpired(before, now);
      DropExpired(now);
      while |entries| >= LIMIT
        invariant entries.Keys <= live.Keys && forall s :: s in entries ==> entries[s] == before[s]
        invariant |live| < LIMIT ==> entries == live
        invariant |live| >= LIMIT ==> |entries| >= LIMIT - 1
        invariant forall s, t :: s in live && s !in entries && t in entries ==> before[s].expires <= before[t].expires
        decreases |entries|
      {
        var oldest := Oldest();
        ghost var was := entries;
        entries := entries - {oldest};
        assert entries.Keys == was.Keys - {oldest};
        assert |entries.Keys| == |entries| && |was.Keys| == |was|;
      }
    }

    method DropExpired(now: real)
      modifies this`entries
      ensures entries == Unexpired(old(entries), now)
    {
      ghost var before := entries;
      var rest := entries.Keys;
      while rest != {}
        invariant rest <= before.Keys
        invariant entries.Keys == set s | s in before && (s in rest || now < before[s].expires)
        invariant forall s :: s in entries ==> entries[s] == before[s]
      {
        var s := Pick(rest);
        if s in entries && !(now < entries[s].expires) {
          entries := entries - {s};
        }
        rest := rest - {s};
      }
    }

    /** Some entry that expires no later than any other. */
    method Oldest() returns (oldest: string)
      requires entries != map[] && "" !in entries
      ensures oldest in entries && forall s :: s in entries ==> entries[oldest].expires <= entries[s].expires
    {
      oldest := "";
      var rest := entries.Keys;
      while rest != {}
        invariant rest <= entries.Keys
        invariant oldest == "" ==> rest == entries.Keys
        invariant oldest != "" ==> oldest in entries
        invariant oldest != "" ==> forall s :: s in entries && s !in rest ==>
                    entries[oldest].expires <= entries[s].expires
      {
        var s := Pick(rest);
        if oldest == "" || entries[s].expires < entries[oldest].expires {
          oldest := s;
        }
        rest := rest - {s};
      }
      assert entries.Keys != {};
    }
  }
}
