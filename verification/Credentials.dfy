/** The stored token pairs, their version check, and the rotations that race for them. */
module Credentials {
  import opened Chunks
  import opened Defaults

  type Key = (string, string, string)

  /** A decrypted payload: the two tokens, and whatever else was stored with them. */
  datatype Pair = Pair(access: string, refresh: string, rest: map<string, string>)

  datatype Row = Row(payload: Pair, version: nat, mode: string, fingerprint: Option<string>, expires: Option<string>,
                     refreshable: bool, updated: string)

  datatype Write = Write(payload: Pair, mode: string, fingerprint: Option<string>, expires: Option<string>,
                         refreshable: bool, expected: Option<nat>)

  datatype Stored = Version(version: nat) | Conflict | NoAccount

  predicate Accepts(row: Option<Row>, write: Write) {
    write.expected.None? || row.None? || row.value.version == write.expected.value
  }

  function Upserted(row: Option<Row>, write: Write, now: string): Row {
    Row(write.payload, if row.Some? then row.value.version + 1
        else 1, OrDefault(write.mode, "bearer"), write.fingerprint, write.expires, write.refreshable, now)
  }

  // ---- what a rotation writes ----

  /** An upstream answer: tokens, the refresh one possibly missing, and a lifetime if it was given. */
  datatype Refreshed = Refreshed(access: string, refresh: string, expiresAt: Option<string>)

  function NextPair(was: Pair, answer: Refreshed): Pair {
    Pair(answer.access, if answer.refresh != "" then answer.refresh else was.refresh, was.rest)
  }

  /** `listed` is the deadline the scan had read; it stays when the answer brings none. */
  function RotationWrite(read: Row, listed: Option<string>, answer: Refreshed): Write {
    Write(NextPair(read.payload, answer), read.mode, None, if answer.expiresAt.Some? then answer.expiresAt
          else listed, true, Some(read.version))
  }

  // ---- one row under concurrent writers ----

  /** A rotation between its read and its write. */
  datatype Job = Reading | Holding(read: Row, deleted: bool) | Finished(wrote: bool)

  /** Where a stored payload came from: a sign-in or import, or a rotation of some earlier pair. */
  datatype Origin = Imported | Rotated(base: Pair, answer: Refreshed)

  datatype Entry = Entry(payload: Pair, origin: Origin)

  /** `account` is whether the account row exists: a credential row refers to it and goes with it. */
  datatype Sys = Sys(account: bool, row: Option<Row>, jobs: seq<Job>, log: seq<Entry>)

  datatype Event =
    | Start
    | Read(j: nat)
    | Rotate(j: nat, listed: Option<string>, answer: Refreshed, now: string)
    | Store(write: Write, now: string)
    | AddAccount
    | Revoke
    | DeleteAccount

  predicate Deletes(e: Event) {
    e.Revoke? || e.DeleteAccount?
  }

  function Deleted(jobs: seq<Job>): seq<Job> {
    seq(|jobs|, j requires 0 <= j < |jobs| => if jobs[j].Holding? then jobs[j].(deleted := true) else jobs[j])
  }

  /** The version check passes, and the account that the row refers to exists. */
  predicate Takes(s: Sys, write: Write) {
    Accepts(s.row, write) && s.account
  }

  ghost predicate Step(s: Sys, e: Event, t: Sys) {
    match e
    case Start => t == s.(jobs := s.jobs + [Reading])
    case Read(j) =>
      && j < |s.jobs| && s.jobs[j].Reading?
      && t == s.(jobs := s.jobs[j := if s.row.Some? then Holding(s.row.value, false) else Finished(false)])
    case Rotate(j, listed, answer, now) =>
      && j < |s.jobs| && s.jobs[j].Holding?
      && var write := RotationWrite(s.jobs[j].read, listed, answer);
         t == if Takes(s, write)
              then Sys(s.account, Some(Upserted(s.row, write, now)), s.jobs[j := Finished(true)],
                       s.log + [Entry(write.payload, Rotated(s.jobs[j].read.payload, answer))])
              else s.(jobs := s.jobs[j := Finished(false)])
    case Store(write, now) =>
      t == if Takes(s, write)
           then s.(row := Some(Upserted(s.row, write, now)), log := s.log + [Entry(write.payload, Imported)]) else s
    case AddAccount => t == s.(account := true)
    case Revoke => t == s.(row := None, jobs := Deleted(s.jobs))
    case DeleteAccount => t == s.(account := false, row := None, jobs := Deleted(s.jobs))
  }

  /** A rotation that saw no deletion since its read finds what it read, or a strictly newer version. */
  ghost predicate Current(s: Sys, j: nat)
    requires j < |s.jobs|
  {
    s.jobs[j].Holding? && !s.jobs[j].deleted ==>
      s.row.Some? && (s.row.value == s.jobs[j].read || s.row.value.version > s.jobs[j].read.version)
  }

  ghost predicate AllCurrent(s: Sys) {
    (s.row.Some? ==> s.account) && forall j: nat :: j < |s.jobs| ==> Current(s, j)
  }

  ghost predicate Run(states: seq<Sys>, events: seq<Event>) {
    && |states| == |events| + 1 && states[0].jobs == [] && states[0].log == []
    && (states[0].row.Some? ==> states[0].account)
    && forall i :: 0 <= i < |events| ==> Step(states[i], events[i], states[i + 1])
  }

  lemma StepStaysCurrent(s: Sys, e: Event, t: Sys)
    requires AllCurrent(s) && Step(s, e, t)
    ensures AllCurrent(t)
  {
    hide NextPair, OrDefault;
    forall j: nat | j < |t.jobs| ensures Current(t, j) {
      assert j < |s.jobs| ==> Current(s, j);
    }
  }

  lemma {:induction false} RunStaysCurrent(states: seq<Sys>, events: seq<Event>, n: nat)
    requires Run(states, events) && n <= |events|
    ensures AllCurrent(states[n])
  {
    if n > 0 {
      RunStaysCurrent(states, events, n - 1);
      hide Step;
      StepStaysCurrent(states[n - 1], events[n - 1], states[n]);
    }
  }

  /**
   A rotation that saw no deletion since its read succeeds exactly when the stored row is the very one it
   read, so the scheduled loop and the 401 rescue cannot overwrite a newer pair with one made from an older.
   */
  lemma RotationSucceedsIff(states: seq<Sys>, events: seq<Event>, n: nat)
    requires Run(states, events) && n < |events| && events[n].Rotate?
    requires events[n].j < |states[n].jobs| && states[n].jobs[events[n].j].Holding?
               && !states[n].jobs[events[n].j].deleted
    ensures var s, t, e := states[n], states[n + 1], events[n];
            var read := s.jobs[e.j].read;
            && (t.jobs[e.j] == Finished(true) <==> s.row == Some(read))
            && (t.jobs[e.j] == Finished(true) ==>
                 && t.row.Some? && t.row.value.version == read.version + 1
                 && t.row.value.payload == NextPair(read.payload, e.answer))
            && (t.jobs[e.j] != Finished(true) ==> t.row == s.row)
  {
    RunStaysCurrent(states, events, n);
    assert Step(states[n], events[n], states[n + 1]) && Current(states[n], events[n].j);
  }

  /** Every change of the stored row bumps its version by one, or starts again at one. */
  lemma VersionsCountWrites(s: Sys, e: Event, t: Sys)
    requires Step(s, e, t) && t.row != s.row && t.row.Some?
    ensures t.row.value.version == (if s.row.Some? then s.row.value.version + 1 else 1) && |t.log| == |s.log| + 1
  {
  }

  // ---- without deletions, the stored pairs form one chain ----

  /** Each stored pair was imported, or made from the pair stored just before it; `first` was there at the start. */
  ghost predicate Chain(first: Option<Row>, log: seq<Entry>) {
    forall i :: 0 <= i < |log| && log[i].origin.Rotated? ==> Continues(first, log, i)
  }

  ghost predicate Continues(first: Option<Row>, log: seq<Entry>, i: nat)
    requires i < |log| && log[i].origin.Rotated?
  {
    && log[i].payload == NextPair(log[i].origin.base, log[i].origin.answer)
    && if i > 0 then log[i].origin.base == log[i - 1].payload
       else first.Some? && log[i].origin.base == first.value.payload
  }

  function FirstVersion(first: Option<Row>): nat {
    if first.Some? then first.value.version else 0
  }

  ghost predicate Logged(first: Option<Row>, s: Sys) {
    && Chain(first, s.log)
    && (s.log == [] ==> s.row == first)
    && (s.log != [] ==> s.row.Some? && s.row.value.version == FirstVersion(first) + |s.log|
                        && s.row.value.payload == s.log[|s.log| - 1].payload)
    && forall j :: 0 <= j < |s.jobs| && s.jobs[j].Holding? ==> !s.jobs[j].deleted && s.row.Some?
  }

  lemma StepLogs(first: Option<Row>, s: Sys, e: Event, t: Sys)
    requires Logged(first, s) && AllCurrent(s) && Step(s, e, t) && !Deletes(e)
    ensures Logged(first, t)
  {
    hide NextPair, OrDefault;
    if e.Rotate? {
      assert Current(s, e.j);
    }
    forall i | 0 <= i < |t.log| && t.log[i].origin.Rotated? ensures Continues(first, t.log, i) {
      if i < |s.log| {
        assert t.log[i] == s.log[i] && (i > 0 ==> t.log[i - 1] == s.log[i - 1]);
        assert Continues(first, s.log, i);
      }
    }
  }

  /**
   No rotation is lost: over any run without deletions, whatever row it starts from, the version counts
   the successful writes, and the stored pairs are a chain in which each rotation continues its predecessor.
   */
  lemma {:induction false} NoLostRotation(states: seq<Sys>, events: seq<Event>, n: nat)
    requires Run(states, events) && n <= |events|
    requires forall i :: 0 <= i < n ==> !Deletes(events[i])
    ensures Logged(states[0].row, states[n])
    ensures Chain(states[0].row, states[n].log)
    ensures FirstVersion(states[n].row) == FirstVersion(states[0].row) + |states[n].log|
  {
    if n > 0 {
      NoLostRotation(states, events, n - 1);
      RunStaysCurrent(states, events, n - 1);
      hide Step, Logged, AllCurrent;
      StepLogs(states[0].row, states[n - 1], events[n - 1], states[n]);
    }
    assert Logged(states[0].row, states[n]) ==> Chain(states[0].row, states[n].log);
  }

  /** However many rotations follow a sign-in, the session can be refreshed again, and other stored fields survive. */
  lemma {:induction false} RefreshTokensSurvive(first: Option<Row>, log: seq<Entry>, i: nat)
    requires Chain(first, log) && i < |log| && (first.Some? ==> first.value.payload.refresh != "")
    requires forall j :: 0 <= j < |log| && log[j].origin.Imported? ==> log[j].payload.refresh != ""
    ensures log[i].payload.refresh != ""
    ensures log[i].origin.Rotated? ==> log[i].payload.access == log[i].origin.answer.access
    ensures log[i].origin.Rotated? ==>
              && log[i].payload.rest == (if i > 0 then log[i - 1].payload.rest else first.value.payload.rest)
              && log[i].payload.refresh == (if log[i].origin.answer.refresh != "" then log[i].origin.answer.refresh
                                            else if i > 0 then log[i - 1].payload.refresh
                                            else first.value.payload.refresh)
  {
    if log[i].origin.Rotated? {
      assert Continues(first, log, i);
      if i > 0 {
        RefreshTokensSurvive(first, log, i - 1);
      }
    }
  }

  /** The last refresh token given by write `n`: by a sign-in or import, or by an upstream whose answer had one. */
  function LastGiven(log: seq<Entry>, n: nat): Option<string>
    requires n <= |log|
  {
    if n == 0 then None
    else if log[n - 1].origin.Imported? then Some(log[n - 1].payload.refresh)
    else if log[n - 1].origin.answer.refresh != "" then Some(log[n - 1].origin.answer.refresh)
    else LastGiven(log, n - 1)
  }

  /** The stored refresh token is always the last one given, or, if none was, the one there at the start. */
  lemma {:induction false} StoredTokenIsLastGiven(first: Option<Row>, log: seq<Entry>, i: nat)
    requires Chain(first, log) && i < |log|
    ensures LastGiven(log, i + 1).Some? ==> log[i].payload.refresh == LastGiven(log, i + 1).value
    ensures LastGiven(log, i + 1).None? ==> first.Some? && log[i].payload.refresh == first.value.payload.refresh
  {
    if log[i].origin.Rotated? {
      assert Continues(first, log, i);
      if i > 0 {
        StoredTokenIsLastGiven(first, log, i - 1);
      }
    }
  }

  /** Job `j` is about to write at step `n`, and what it read is of that version. */
  predicate Writes(states: seq<Sys>, events: seq<Event>, n: nat, version: nat)
    requires |states| == |events| + 1
  {
    && n < |events| && events[n].Rotate? && events[n].j < |states[n].jobs| && states[n].jobs[events[n].j].Holding?
    && states[n].jobs[events[n].j].read.version == version
  }

  /** Of the rotations that read one version, at most one gets its pair stored. */
  lemma OneRotationPerVersion(states: seq<Sys>, events: seq<Event>, m: nat, n: nat, version: nat)
    requires Run(states, events) && m < n && Writes(states, events, m, version) && Writes(states, events, n, version)
    requires forall i :: 0 <= i < n ==> !Deletes(events[i])
    requires events[m].j < |states[m + 1].jobs| && events[n].j < |states[n + 1].jobs|
    ensures states[m + 1].jobs[events[m].j] == Finished(true) ==> states[n + 1].jobs[events[n].j] == Finished(false)
  {
    NoLostRotation(states, events, n);
    NoLostRotation(states, events, m + 1);
    assert Step(states[m], events[m], states[m + 1]) && Step(states[n], events[n], states[n + 1]);
    RunStaysCurrent(states, events, m);
    assert Current(states[m], events[m].j);
    NoLostRotation(states, events, m);
    LogGrows(states, events, m + 1, n);
  }

  lemma {:induction false} LogGrows(states: seq<Sys>, events: seq<Event>, m: nat, n: nat)
    requires Run(states, events) && m <= n <= |events|
    ensures |states[m].log| <= |states[n].log|
  {
    if m < n {
      LogGrows(states, events, m, n - 1);
      assert Step(states[n - 1], events[n - 1], states[n]);
    }
  }

  // ---- with deletions ----

  /** Until it writes, a job keeps what it read, and it notices no deletion but remembers each. */
  lemma {:induction false} HoldingStays(states: seq<Sys>, events: seq<Event>, m: nat, n: nat, j: nat)
    requires Run(states, events) && m <= n <= |events|
    requires j < |states[m].jobs| && states[m].jobs[j].Holding?
    ensures j < |states[n].jobs|
    ensures states[n].jobs[j].Holding? ==> states[n].jobs[j].read == states[m].jobs[j].read
    ensures states[n].jobs[j].Holding? && states[m].jobs[j].deleted ==> states[n].jobs[j].deleted
    ensures states[n].jobs[j].Holding? || states[n].jobs[j].Finished?
  {
    if m < n {
      HoldingStays(states, events, m, n - 1, j);
      assert Step(states[n - 1], events[n - 1], states[n]);
      hide Takes, Upserted, RotationWrite;
    }
  }

  /** Whether the account exists is decided by the last time it was added or deleted. */
  lemma {:induction false} AccountIs(states: seq<Sys>, events: seq<Event>, m: nat, n: nat)
    requires Run(states, events) && m <= n <= |events|
    ensures (forall i :: m <= i < n ==> !events[i].DeleteAccount?) && states[m].account ==> states[n].account
    ensures (forall i :: m <= i < n ==> !events[i].AddAccount?) && !states[m].account ==> !states[n].account
  {
    if m < n {
      AccountIs(states, events, m, n - 1);
      assert Step(states[n - 1], events[n - 1], states[n]);
      hide Takes, Upserted, RotationWrite, Deleted;
    }
  }

  /**
   A rotation that was under way when its row was deleted, alone or with its account, stores its pair
   exactly when the account exists at its write and no credential of another version stands in the way.
   With no credential there, the revoked session is back, at version one.
   */
  lemma StaleRotationIff(states: seq<Sys>, events: seq<Event>, m: nat, n: nat)
    requires Run(states, events) && m < n < |events| && Deletes(events[m]) && events[n].Rotate?
    requires events[n].j < |states[m].jobs| && states[m].jobs[events[n].j].Holding?
    ensures var (j, read, s, t) := (events[n].j, states[m].jobs[events[n].j].read, states[n], states[n + 1]);
            && j < |t.jobs|
            && (t.jobs[j] == Finished(true) <==> s.account && (s.row.None? || s.row.value.version == read.version))
            && (t.jobs[j] == Finished(true) ==>
                 && t.row.Some? && t.row.value.payload == NextPair(read.payload, events[n].answer)
                 && t.row.value.version == (if s.row.None? then 1 else read.version + 1))
            && (t.jobs[j] != Finished(true) ==> t.row == s.row)
  {
    HoldingStays(states, events, m, n, events[n].j);
    assert Step(states[n], events[n], states[n + 1]);
    hide OrDefault, NextPair;
  }

  /** The row is gone as long as nothing is written. */
  lemma {:induction false} StaysGone(states: seq<Sys>, events: seq<Event>, m: nat, n: nat)
    requires Run(states, events) && m <= n <= |events| && states[m].row.None?
    requires forall i :: m <= i < n ==> !events[i].Store? && !events[i].Rotate?
    ensures states[n].row.None?
  {
    if m < n {
      StaysGone(states, events, m, n - 1);
      assert Step(states[n - 1], events[n - 1], states[n]);
    }
  }

  /**
   If nothing else writes in between, a revoked credential comes back through a rotation under way exactly
   when its account exists by then: always if only the credential was deleted, and after the deletion of
   the account only if it was added again.
   */
  lemma RevokedComesBackIff(states: seq<Sys>, events: seq<Event>, m: nat, n: nat)
    requires Run(states, events) && m < n < |events| && Deletes(events[m]) && events[n].Rotate?
    requires events[n].j < |states[m].jobs| && states[m].jobs[events[n].j].Holding?
    requires forall i :: m < i < n ==> !events[i].Store? && !events[i].Rotate?
    ensures states[n + 1].row.Some? <==> states[n].account
    ensures events[m].Revoke? && states[m].account && (forall i :: m < i < n ==> !events[i].DeleteAccount?) ==>
              states[n + 1].row.Some?
    ensures events[m].DeleteAccount? && (forall i :: m < i < n ==> !events[i].AddAccount?) ==> states[n + 1].row.None?
  {
    assert Step(states[m], events[m], states[m + 1]);
    StaysGone(states, events, m + 1, n);
    StaleRotationIff(states, events, m, n);
    AccountIs(states, events, m + 1, n);
    hide Step;
  }

  /** A sign-in, revoked while a rotation of it waits for its answer: the rotation stores the session again. */
  lemma RevokedComesBack(read: Row, answer: Refreshed, now: string)
    ensures var s0 := Sys(true, Some(read), [], []);
            var s1 := s0.(jobs := [Reading]);
            var s2 := s0.(jobs := [Holding(read, false)]);
            var s3 := Sys(true, None, [Holding(read, true)], []);
            var write := RotationWrite(read, None, answer);
            var s4 := Sys(true, Some(Upserted(None, write, now)), [Finished(true)],
                          [Entry(write.payload, Rotated(read.payload, answer))]);
            && Run([s0, s1, s2, s3, s4], [Start, Read(0), Revoke, Rotate(0, None, answer, now)])
            && s4.row.value.payload == NextPair(read.payload, answer) && s4.row.value.version == 1
  {
    var s0 := Sys(true, Some(read), [], []);
    var s1 := s0.(jobs := [Reading]);
    var s2 := s0.(jobs := [Holding(read, false)]);
    var s3 := Sys(true, None, [Holding(read, true)], []);
    var write := RotationWrite(read, None, answer);
    var s4 := Sys(true, Some(Upserted(None, write, now)), [Finished(true)],
                  [Entry(write.payload, Rotated(read.payload, answer))]);
    assert Step(s0, Start, s1) && Step(s1, Read(0), s2) && Step(s2, Revoke, s3);
    assert Step(s3, Rotate(0, None, answer, now), s4);
    hide Step, RotationWrite, Upserted;
    var states, events := [s0, s1, s2, s3, s4], [Start, Read(0), Revoke, Rotate(0, None, answer, now)];
    forall i | 0 <= i < |events| ensures Step(states[i], events[i], states[i + 1]) {
      assert i == 0 || i == 1 || i == 2 || i == 3;
    }
  }

  /**
   A fresh sign-in after a deletion restarts at version one, so a rotation that had read version one
   overwrites it.
   */
  lemma NewSignInIsOverwritten(s: Sys, deletion: Event, t: Sys, added: Sys, u: Sys, v: Sys, j: nat, write: Write,
                               listed: Option<string>, answer: Refreshed, now: string)
    requires j < |s.jobs| && s.jobs[j].Holding? && Deletes(deletion) && Step(s, deletion, t)
               && Step(t, AddAccount, added)
    requires write.expected.None? && Step(added, Store(write, now), u) && Step(u, Rotate(j, listed, answer, now), v)
    ensures u.row.Some? && u.row.value.payload == write.payload && v.row.Some?
    ensures v.row.value.payload == NextPair(s.jobs[j].read.payload, answer) && v.row != u.row <==>
              s.jobs[j].read.version == 1
  {
  }

  // ---- the tables ----

  datatype Purpose = Purpose(enabled: bool, status: string, verification: string, lastError: Option<string>,
                             lastSuccess: Option<string>, expires: Option<string>, updated: string)

  function Rejected(p: Purpose, reason: string, now: string): Purpose {
    p.(status := "needs_reauth", verification := "rejected", lastError := Some(reason), updated := now)
  }

  function Cleared(p: Purpose, now: string): Purpose {
    p.(status := "active", verification := "verified", lastSuccess := Some(now), lastError := None, updated := now)
  }

  /** Only a rejected purpose is revived, and whether the operator enabled it is left alone. */
  function Revived(p: Purpose, now: string): Purpose {
    if p.status == "needs_reauth" then Cleared(p, now) else p
  }

  /** A recovery undoes a rejection: enablement and deadline survive the round, and no rejection is left. */
  lemma RecoveryUndoesRejection(p: Purpose, reason: string, now: string, later: string)
    requires p.status == "active" && p.verification == "verified" && p.lastError == None
    ensures Revived(Rejected(p, reason, now), later) == p.(lastSuccess := Some(later), updated := later)
    ensures Revived(Revived(Rejected(p, reason, now), later), now) == Revived(Rejected(p, reason, now), later)
  {
  }

  lemma UpsertedPair(row: Option<Row>, read: Row, listed: Option<string>, answer: Refreshed, now: string)
    ensures var stored := Upserted(row, RotationWrite(read, listed, answer), now);
            && stored.payload.access == answer.access && stored.payload.rest == read.payload.rest
            && stored.payload.refresh == (if answer.refresh != "" then answer.refresh else read.payload.refresh)
            && stored.version == (if row.Some? then row.value.version + 1 else 1)
            && stored.expires == (if answer.expiresAt.Some? then answer.expiresAt else listed)
  {
  }

  function Get<T>(rows: map<Key, T>, key: Key): Option<T> {
    if key in rows then Some(rows[key]) else None
  }

  function Edit<T>(rows: map<Key, T>, key: Key, edit: T -> T): map<Key, T> {
    if key in rows then rows[key := edit(rows[key])] else rows
  }

  function Landed(purposes: map<Key, Purpose>, key: Key, expires: Option<string>, now: string): map<Key, Purpose> {
    if key !in purposes then purposes
    else if expires.Some? then purposes[key := Revived(purposes[key], now).(expires := expires, updated := now)]
    else purposes[key := Revived(purposes[key], now)]
  }

  datatype Outcome = Done | Transient | Dead | Unusable

  /** What upstream says to a refresh. */
  datatype Answer = Tokens(refreshed: Refreshed) | Failure(kind: Outcome)

  class CredentialStore {
    var accounts: set<(string, string)>
    var rows: map<Key, Row>
    var purposes: map<Key, Purpose>

    /** The foreign key: a credential has an account. */
    ghost predicate Referring()
      reads this
    {
      forall k :: k in rows ==> (k.0, k.1) in accounts
    }

    constructor ()
      ensures Referring() && rows == map[] && accounts == {}
    {
      accounts, rows, purposes := {}, map[], map[];
    }

    method AddAccount(provider: string, account: string)
      requires Referring()
      modifies this`accounts
      ensures Referring() && accounts == old(accounts) + {(provider, account)}
    {
      accounts := accounts + {(provider, account)};
    }

    method DeleteCredential(key: Key)
      requires Referring()
      modifies this`rows
      ensures Referring() && rows == old(rows) - {key}
    {
      rows := rows - {key};
    }

    /** The account goes with everything that refers to it, and nothing else goes. */
    method DeleteAccount(provider: string, account: string)
      requires Referring()
      modifies this
      ensures Referring() && accounts == old(accounts) - {(provider, account)}
      ensures forall k :: k in rows <==> k in old(rows) && (k.0, k.1) != (provider, account)
      ensures forall k :: k in purposes <==> k in old(purposes) && (k.0, k.1) != (provider, account)
      ensures (forall k :: k in rows ==> rows[k] == old(rows)[k]) && forall k :: k in purposes ==>
                purposes[k] == old(purposes)[k]
    {
      rows := map k | k in rows && (k.0, k.1) != (provider, account) :: rows[k];
      purposes := map k | k in purposes && (k.0, k.1) != (provider, account) :: purposes[k];
      accounts := accounts - {(provider, account)};
    }

    method Upsert(key: Key, write: Write, now: string) returns (result: Stored)
      requires Referring()
      modifies this`rows
      ensures Referring()
      ensures if Accepts(Get(old(rows), key), write) && (key.0, key.1) in accounts
              then rows == old(rows)[key := Upserted(Get(old(rows), key), write, now)]
                && result == Version(rows[key].version)
              else rows == old(rows) && result == if Accepts(Get(old(rows), key), write) then NoAccount else Conflict
    {
      if write.expected.Some? && key in rows && rows[key].version != write.expected.value {
        return Conflict;
      }
      var version := 1;
      if key in rows {
        version := rows[key].version + 1;
      }
      if (key.0, key.1) !in accounts {
        return NoAccount;
      }
      rows := rows[key := Row(write.payload, version, OrDefault(write.mode, "bearer"), write.fingerprint,
                              write.expires, write.refreshable, now)];
      return Version(version);
    }

    method MarkRejected(key: Key, reason: string, now: string)
      modifies this`purposes
      ensures purposes == Edit(old(purposes), key, p => Rejected(p, reason, now))
    {
      if key in purposes {
        purposes := purposes[key := purposes[key].(status := "needs_reauth", verification := "rejected",
                                                   lastError := Some(reason), updated := now)];
      }
    }

    method ClearRejection(key: Key, now: string)
      modifies this`purposes
      ensures purposes == Edit(old(purposes), key, p => Cleared(p, now))
    {
      if key in purposes {
        purposes := purposes[key := purposes[key].(status := "active", verification := "verified",
                                                   lastSuccess := Some(now), lastError := None, updated := now)];
      }
    }

    method Revive(key: Key, now: string)
      modifies this`purposes
      ensures purposes == Edit(old(purposes), key, p => Revived(p, now))
    {
      if key in purposes && purposes[key].status == "needs_reauth" {
        ClearRejection(key, now);
      }
    }

    method SetExpiry(key: Key, expires: Option<string>, now: string)
      modifies this`purposes
      ensures purposes == Edit(old(purposes), key, (p: Purpose) => p.(expires := expires, updated := now))
    {
      if key in purposes {
        purposes := purposes[key := purposes[key].(expires := expires, updated := now)];
      }
    }

    /** A stored rotation revives the purpose and mirrors the deadline onto it. */
    method Land(key: Key, expires: Option<string>, now: string)
      modifies this`purposes
      ensures purposes == Landed(old(purposes), key, expires, now)
    {
      Revive(key, now);
      if expires.Some? {
        SetExpiry(key, expires, now);
      }
    }

    /** What other writers may leave behind while the upstream call runs. */
    method Elsewhere()
      modifies this
      ensures Referring()
    {
      var others: map<Key, Row> := *;
      accounts, purposes := *, *;
      rows := map k | k in others && (k.0, k.1) in accounts :: others[k];
    }

    /**
     One rotation. A failure of any kind leaves the stored pair as others left it; a success stores both
     tokens under the version check and brings a rejected purpose back.
     */
    method RotateCredential(key: Key, listed: Option<string>, answer: Answer, now: string)
      returns (outcome: Outcome, read: Option<Row>, found: map<Key, Row>, marks: map<Key, Purpose>)
      requires Referring()
      modifies this
      ensures Referring() && read == Get(old(rows), key)
      ensures outcome.Done? <==>
                && read.Some? && read.value.payload.refresh != "" && answer.Tokens? && answer.refreshed.access != ""
                && Accepts(Get(found, key), RotationWrite(read.value, listed, answer.refreshed))
                && (key.0, key.1) in accounts
      ensures !outcome.Done? ==> rows == found && purposes == marks
      ensures outcome.Done? ==>
                var write := RotationWrite(read.value, listed, answer.refreshed);
                && rows == found[key := Upserted(Get(found, key), write, now)]
                && purposes == Landed(marks, key, write.expires, now)
      ensures outcome.Done? ==>
                && key in rows && rows[key].payload.access == answer.refreshed.access
                && rows[key].payload.rest == read.value.payload.rest
                && rows[key].version == (if key in found then found[key].version + 1 else 1)
                && rows[key].expires == (if answer.refreshed.expiresAt.Some? then answer.refreshed.expiresAt
                                         else listed)
                && rows[key].payload.refresh == if answer.refreshed.refresh != "" then answer.refreshed.refresh
                                                else read.value.payload.refresh
      ensures read.None? ==> outcome == Transient
      ensures read.Some? && read.value.payload.refresh == "" ==> outcome == Unusable
      ensures read.Some? && read.value.payload.refresh != "" && answer.Failure? && !answer.kind.Done? ==>
                outcome == answer.kind
    {
      hide Landed, Upserted, OrDefault;
      read, found, marks := Get(rows, key), rows, purposes;
      if read.None? {
        return Transient, read, found, marks;
      }
      if read.value.payload.refresh == "" {
        return Unusable, read, found, marks;
      }
      Elsewhere();
      found, marks := rows, purposes;
      if answer.Failure? {
        return if answer.kind.Done? then Transient else answer.kind, read, found, marks;
      }
      if answer.refreshed.access == "" {
        return Transient, read, found, marks;
      }
      var write := RotationWrite(read.value, listed, answer.refreshed);
      var stored := Upsert(key, write, now);
      if !stored.Version? {
        return Transient, read, found, marks;
      }
      UpsertedPair(Get(found, key), read.value, listed, answer.refreshed, now);
      Land(key, write.expires, now);
      return Done, read, found, marks;
    }
  }
}
