/** When a credential is refreshed: the policy, the hold on dead sessions, and the spacing of rescues. */
module Rotation {
  import opened Chunks

  // ---- instants in nanoseconds; zero is the zero time an unreadable stamp parses to ----

  const MAX_SPAN := 0x7FFF_FFFF_FFFF_FFFF
  const HOUR := 3_600_000_000_000

  /** The difference of two instants saturates at the largest representable span. */
  function Sub(a: int, b: int): int {
    if a - b > MAX_SPAN then MAX_SPAN else if a - b < -MAX_SPAN - 1 then -MAX_SPAN - 1 else a - b
  }

  datatype Policy = Policy(interval: int, lead: int, fraction: real)

  function DeadSessionRetry(policy: Policy): int {
    if policy.interval > 0 then policy.interval else 6 * HOUR
  }

  function Share(fraction: real, span: int): int {
    (fraction * (span as real)).Floor
  }

  predicate RollingDue(policy: Policy, updatedAt: int, now: int) {
    policy.interval > 0 && updatedAt != 0 && Sub(now, updatedAt) >= policy.interval
  }

  predicate LeadDue(policy: Policy, expiresAt: int, now: int) {
    policy.lead > 0 && Sub(expiresAt, now) <= policy.lead
  }

  predicate ShareDue(policy: Policy, updatedAt: int, expiresAt: int, now: int) {
    var lifetime := Sub(expiresAt, updatedAt);
    policy.fraction > 0.0 && lifetime > 0 && Sub(expiresAt, now) <= Share(policy.fraction, lifetime)
  }

  predicate RefreshDue(policy: Policy, updatedAt: int, expiresAt: Option<int>, now: int) {
    if RollingDue(policy, updatedAt, now) then true
    else if expiresAt.None? then false
    else LeadDue(policy, expiresAt.value, now) || ShareDue(policy, updatedAt, expiresAt.value, now)
  }

  /** A due credential stays due until it is written again. */
  lemma DueStaysDue(policy: Policy, updatedAt: int, expiresAt: Option<int>, now: int, later: int)
    requires RefreshDue(policy, updatedAt, expiresAt, now) && now <= later
    ensures RefreshDue(policy, updatedAt, expiresAt, later)
  {
    hide Share;
  }

  // ---- the instant a credential falls due ----

  /** From when on something holds: at every time, from an instant on, or never. */
  datatype When = Always | From(at: int) | Never

  predicate Reached(w: When, now: int) {
    w.Always? || (w.From? && now >= w.at)
  }

  function Earlier(a: When, b: When): When {
    if a.Always? || b.Always? then Always
    else if a.Never? then b
    else if b.Never? then a
    else if a.at <= b.at then a else b
  }

  /** When at most `span` is left until `deadline`: a span that no difference can exceed is always left. */
  function LeftAt(deadline: int, span: int): When {
    if span >= MAX_SPAN then Always else if span < -MAX_SPAN - 1 then Never else From(deadline - span)
  }

  lemma LeftFrom(deadline: int, span: int, now: int)
    ensures Sub(deadline, now) <= span <==> Reached(LeftAt(deadline, span), now)
  {
  }

  /** The earliest of the enabled triggers. */
  function DueAt(policy: Policy, updatedAt: int, expiresAt: Option<int>): When {
    var rolling := if policy.interval > 0 && updatedAt != 0 then From(updatedAt + policy.interval) else Never;
    if expiresAt.None? then rolling
    else
      var lifetime := Sub(expiresAt.value, updatedAt);
      var lead := if policy.lead > 0 then LeftAt(expiresAt.value, policy.lead) else Never;
      var share :=
        if policy.fraction > 0.0 && lifetime > 0 then LeftAt(expiresAt.value, Share(policy.fraction, lifetime))
          else Never;
      Earlier(rolling, Earlier(lead, share))
  }

  /**
   Every credential is due exactly from one instant on, whatever its stamps and however far apart they
   are; the interval only has to be a span that can be represented.
   */
  lemma DueFrom(policy: Policy, updatedAt: int, expiresAt: Option<int>, now: int)
    requires policy.interval <= MAX_SPAN
    ensures RefreshDue(policy, updatedAt, expiresAt, now) <==> Reached(DueAt(policy, updatedAt, expiresAt), now)
  {
    if expiresAt.Some? {
      var lifetime := Sub(expiresAt.value, updatedAt);
      if policy.fraction > 0.0 && lifetime > 0 {
        ShareIsPositive(policy.fraction, lifetime);
      }
      hide Share, Sub, LeftAt;
      LeftFrom(expiresAt.value, policy.lead, now);
      LeftFrom(expiresAt.value, Share(policy.fraction, lifetime), now);
    }
  }

  lemma ShareIsPositive(fraction: real, span: int)
    requires fraction > 0.0 && span > 0
    ensures Share(fraction, span) >= 0
  {
    Times(fraction, span as real);
  }

  lemma Times(a: real, b: real)
    requires a > 0.0 && b > 0.0
    ensures a * b > 0.0
  {
  }

  /**
   A row whose write stamp cannot be read counts as written in the year one. Without a readable deadline
   it is never due, for any policy. With one so far from the year one that the lifetime saturates, it is
   due exactly when the lead is reached, or when no more is left than the share of the largest span.
   */
  lemma UnreadableStamp(policy: Policy, expiresAt: int, now: int)
    requires expiresAt >= MAX_SPAN
    ensures !RefreshDue(policy, 0, None, now)
    ensures RefreshDue(policy, 0, Some(expiresAt), now) <==>
              || (policy.lead > 0 && Sub(expiresAt, now) <= policy.lead)
              || (policy.fraction > 0.0 && Sub(expiresAt, now) <= Share(policy.fraction, MAX_SPAN))
  {
    hide Share;
  }

  // ---- the loop and the sessions it holds back ----

  datatype Listed = Listed(key: string, refreshable: bool, contract: bool, updatedAt: int, expiresAt: Option<int>)

  datatype Ending = Rotated | SessionDead | Other

  /** Due, not held, and with a refresh endpoint to call. */
  predicate Attempts(policy: Policy, held: map<string, int>, c: Listed, now: int) {
    c.refreshable && RefreshDue(policy, c.updatedAt, c.expiresAt, now) && !(c.key in held && now < held[c.key])
      && c.contract
  }

  /** A round attempts exactly the refreshable ones that are due by then and that no dead session holds back. */
  lemma AttemptedIff(policy: Policy, held: map<string, int>, c: Listed, now: int)
    requires policy.interval <= MAX_SPAN
    ensures Attempts(policy, Released(held, now), c, now) <==>
              && c.refreshable && c.contract && Reached(DueAt(policy, c.updatedAt, c.expiresAt), now)
              && (c.key in held ==> now >= held[c.key])
  {
    DueFrom(policy, c.updatedAt, c.expiresAt, now);
    hide RefreshDue, DueAt;
  }

  /** Holds that are over are dropped before a round. */
  function Released(held: map<string, int>, now: int): map<string, int> {
    map k | k in held && now <= held[k] :: held[k]
  }

  function Attempted(policy: Policy, held: map<string, int>, listed: seq<Listed>, now: int): set<nat> {
    set i: nat | i < |listed| && Attempts(policy, held, listed[i], now)
  }

  /** The keys whose attempt in this round met a dead session. */
  function DeadKeys(policy: Policy, held: map<string, int>, listed: seq<Listed>, ends: nat -> Ending,
                    now: int): set<string> {
    set i: nat | i < |listed| && Attempts(policy, held, listed[i], now) && ends(i).SessionDead? :: listed[i].key
  }

  lemma RoundGrows(policy: Policy, held: map<string, int>, listed: seq<Listed>, ends: nat -> Ending, now: int, i: nat)
    requires i < |listed|
    ensures var c := listed[i];
            && Attempted(policy, held, listed[..i + 1], now)
                 == Attempted(policy, held, listed[..i], now) + (if Attempts(policy, held, c, now) then {i} else {})
            && DeadKeys(policy, held, listed[..i + 1], ends, now) ==
                 DeadKeys(policy, held, listed[..i], ends, now) + if Attempts(policy, held, c, now)
                   && ends(i).SessionDead? then {c.key} else {}
  {
    hide Attempts;
    assert forall j: nat :: j < i ==> listed[..i + 1][j] == listed[..i][j];
    var before, after := DeadKeys(policy, held, listed[..i], ends, now),
      DeadKeys(policy, held, listed[..i + 1], ends, now);
    forall k | k in before ensures k in after {
      var j: nat :| j < i && Attempts(policy, held, listed[..i][j], now) && ends(j).SessionDead?
        && listed[..i][j].key == k;
      assert listed[..i + 1][j].key == k;
    }
    if Attempts(policy, held, listed[i], now) && ends(i).SessionDead? {
      assert listed[..i + 1][i].key in after;
    }
  }

  function HeldAfter(policy: Policy, held: map<string, int>, listed: seq<Listed>, ends: nat -> Ending, now: int,
                     after: int): map<string, int> {
    var free := Released(held, now);
    var dead := DeadKeys(policy, free, listed, ends, now);
    map k | k in free.Keys + dead :: if k in dead then after + DeadSessionRetry(policy) else free[k]
  }

  class RotationLoop {
    var held: map<string, int>

    constructor ()
      ensures held == map[]
    {
      held := map[];
    }

    /** One round; `ends(i)` is what an attempt on the i-th credential comes to, `after` when the round is over. */
    method Round(policy: Policy, listed: seq<Listed>, ends: nat -> Ending, now: int, after: int)
      returns (attempted: set<nat>)
      modifies this
      ensures held == HeldAfter(policy, old(held), listed, ends, now, after)
      ensures attempted == Attempted(policy, Released(old(held), now), listed, now)
    {
      hide Attempted, DeadKeys, RefreshDue, Released;
      held := Released(held, now);
      attempted := {};
      var retryAfter: map<string, int> := map[];
      NothingYet(policy, held, listed, ends, now);
      for i := 0 to |listed|
        invariant held == Released(old(held), now)
        invariant attempted == Attempted(policy, held, listed[..i], now)
        invariant retryAfter.Keys == DeadKeys(policy, held, listed[..i], ends, now)
        invariant forall k :: k in retryAfter ==> retryAfter[k] == DeadSessionRetry(policy)
      {
        RoundGrows(policy, held, listed, ends, now, i);
        var c := listed[i];
        if c.refreshable && RefreshDue(policy, c.updatedAt, c.expiresAt, now)
          && !(c.key in held && now < held[c.key]) && c.contract {
          attempted := attempted + {i};
          if ends(i).SessionDead? {
            retryAfter := retryAfter[c.key := DeadSessionRetry(policy)];
          }
        }
      }
      assert listed[..|listed|] == listed;
      held := map k | k in held.Keys + retryAfter.Keys :: if k in retryAfter then after + retryAfter[k] else held[k];
    }

    lemma NothingYet(policy: Policy, free: map<string, int>, listed: seq<Listed>, ends: nat -> Ending, now: int)
      ensures Attempted(policy, free, listed[..0], now) == {} && DeadKeys(policy, free, listed[..0], ends, now) == {}
    {
    }
  }

  /** One round of a run: its inputs, when it began and when it ended. */
  datatype Scan = Scan(policy: Policy, listed: seq<Listed>, ends: nat -> Ending, now: int, after: int)

  ghost predicate Loop(holds: seq<map<string, int>>, scans: seq<Scan>) {
    && |holds| == |scans| + 1 && holds[0] == map[]
    && (forall i :: 0 <= i < |scans| ==>
          holds[i + 1] == HeldAfter(scans[i].policy, holds[i], scans[i].listed, scans[i].ends, scans[i].now,
                                    scans[i].after))
    && (forall i :: 0 <= i < |scans| ==> scans[i].now <= scans[i].after)
    && forall i, j :: 0 <= i < j < |scans| ==> scans[i].after <= scans[j].now
  }

  /** A dead session is not probed again before the retry interval of the round that found it has passed. */
  lemma DeadSessionsAreSpaced(holds: seq<map<string, int>>, scans: seq<Scan>, m: nat, n: nat, i: nat, j: nat)
    requires Loop(holds, scans) && m < n < |scans| && i < |scans[m].listed| && j < |scans[n].listed|
    requires var a, b := scans[m], scans[n];
             && Attempts(a.policy, Released(holds[m], a.now), a.listed[i], a.now) && a.ends(i).SessionDead?
             && Attempts(b.policy, Released(holds[n], b.now), b.listed[j], b.now) && b.listed[j].key == a.listed[i].key
    ensures scans[n].now >= scans[m].after + DeadSessionRetry(scans[m].policy)
  {
    var key, until := scans[m].listed[i].key, scans[m].after + DeadSessionRetry(scans[m].policy);
    if scans[n].now < until {
      assert key in DeadKeys(scans[m].policy, Released(holds[m], scans[m].now), scans[m].listed, scans[m].ends,
                             scans[m].now);
      assert key in holds[m + 1] && holds[m + 1][key] == until;
      HoldLasts(holds, scans, m + 1, n, key, until);
    }
  }

  lemma {:induction false} HoldLasts(holds: seq<map<string, int>>, scans: seq<Scan>, m: nat, n: nat, key: string,
                                     until: int)
    requires Loop(holds, scans) && m <= n < |scans| && key in holds[m] && holds[m][key] == until && scans[n].now < until
    ensures key in holds[n] && holds[n][key] == until
  {
    if m < n {
      assert scans[n - 1].now <= scans[n].now;
      HoldLasts(holds, scans, m, n - 1, key, until);
      var s := scans[n - 1];
      var free := Released(holds[n - 1], s.now);
      assert key in free;
      assert key !in DeadKeys(s.policy, free, s.listed, s.ends, s.now);
    }
  }

  // ---- rescues on a refused token ----

  const RESCUE_COOLDOWN := 60_000_000_000

  class AuthRescue {
    var attempts: map<string, int>

    constructor ()
      ensures attempts == map[]
    {
      attempts := map[];
    }

    /** Whether a refused token starts a repair. */
    method Trigger(key: string, known: bool, now: int) returns (started: bool)
      modifies this
      ensures started == Starts(old(attempts), key, known, now)
      ensures attempts == AfterTrigger(old(attempts), key, known, now)
    {
      if !known {
        return false;
      }
      if key in attempts && Sub(now, attempts[key]) < RESCUE_COOLDOWN {
        return false;
      }
      attempts := attempts[key := now];
      return true;
    }
  }

  predicate Starts(attempts: map<string, int>, key: string, known: bool, now: int) {
    known && (key !in attempts || Sub(now, attempts[key]) >= RESCUE_COOLDOWN)
  }

  function AfterTrigger(attempts: map<string, int>, key: string, known: bool, now: int): map<string, int> {
    if Starts(attempts, key, known, now) then attempts[key := now] else attempts
  }

  datatype Refusal = Refusal(key: string, known: bool, now: int)

  function AttemptsAfter(refusals: seq<Refusal>): map<string, int> {
    if refusals == [] then map[]
    else
      var r := refusals[|refusals| - 1];
      AfterTrigger(AttemptsAfter(refusals[..|refusals| - 1]), r.key, r.known, r.now)
  }

  predicate StartsAt(refusals: seq<Refusal>, i: nat)
    requires i < |refusals|
  {
    Starts(AttemptsAfter(refusals[..i]), refusals[i].key, refusals[i].known, refusals[i].now)
  }

  ghost predicate InTime(refusals: seq<Refusal>) {
    forall i, j :: 0 <= i < j < |refusals| ==> refusals[i].now <= refusals[j].now
  }

  /**
   However many refusals storm in: two repairs of one account start at least a minute apart, and a
   refusal that starts none was preceded by a repair less than a minute ago.
   */
  lemma RescuesAreSpaced(refusals: seq<Refusal>, j: nat)
    requires InTime(refusals) && j < |refusals| && refusals[j].known
    requires forall i :: 0 <= i < |refusals| ==> 0 <= refusals[i].now <= MAX_SPAN
    ensures StartsAt(refusals, j) ==>
              forall i: nat :: i < j && refusals[i].key == refusals[j].key && StartsAt(refusals, i) ==>
                refusals[j].now - refusals[i].now >= RESCUE_COOLDOWN
    ensures !StartsAt(refusals, j) ==>
              exists i: nat :: i < j && refusals[i].key == refusals[j].key && StartsAt(refusals, i)
                && refusals[j].now - refusals[i].now < RESCUE_COOLDOWN
  {
    LastStart(refusals, j, refusals[j].key);
  }

  /** The table holds each account's latest start. */
  lemma {:induction false} LastStart(refusals: seq<Refusal>, n: nat, key: string)
    requires InTime(refusals) && n <= |refusals|
    ensures var attempts := AttemptsAfter(refusals[..n]);
            && (key in attempts ==>
                 exists i: nat :: i < n && refusals[i].key == key && StartsAt(refusals, i)
                   && refusals[i].now == attempts[key])
            && forall i: nat :: i < n && refusals[i].key == key && StartsAt(refusals, i) ==>
                 key in attempts && refusals[i].now <= attempts[key]
  {
    if n > 0 {
      LastStart(refusals, n - 1, key);
      assert refusals[..n][..n - 1] == refusals[..n - 1];
      hide Starts;
      var before, r := AttemptsAfter(refusals[..n - 1]), refusals[n - 1];
      assert AttemptsAfter(refusals[..n]) == AfterTrigger(before, r.key, r.known, r.now);
      if r.key == key && StartsAt(refusals, n - 1) {
        assert AttemptsAfter(refusals[..n])[key] == r.now;
      } else {
        assert key in AttemptsAfter(refusals[..n]) <==> key in before;
      }
    }
  }
}
