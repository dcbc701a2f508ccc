/** Any number of scheduled and forced runs of one account's day, interleaved write by write. */
module DayTurns {
  import opened Chunks
  import opened Sorting
  import opened ActiveDays

  datatype Role = Scheduled | Forced

  /** Holding is a scheduled run that won its claim; Sent is a run whose chat turn went out. */
  datatype Phase = Ready | Holding | Sent | Over

  datatype Actor = Actor(role: Role, phase: Phase, won: bool)

  /** The stored row, the runs so far, and who sent a chat turn, in order. */
  datatype Sys = Sys(row: Option<Row>, actors: seq<Actor>, turns: seq<nat>)

  datatype Event =
    | Arrive(role: Role)
    | Claim(a: nat, now: string)
    | Look(a: nat, o: Overview, now: string)
    | Settle(a: nat, o: Overview, now: string)
    | Send(a: nat, o: Overview)
    | Conclude(a: nat, turn: TurnResult, now: string)
    | Correct(row: Row)

  function Moved(s: Sys, a: nat, phase: Phase): seq<Actor>
    requires a < |s.actors|
  {
    s.actors[a := s.actors[a].(phase := phase)]
  }

  function Edited(row: Option<Row>, edit: Row -> Row): Option<Row> {
    if row.Some? then Some(edit(row.value)) else None
  }

  predicate At(s: Sys, a: nat, role: Role, phase: Phase) {
    a < |s.actors| && s.actors[a].role == role && s.actors[a].phase == phase
  }

  /** One write, or one chat turn. `Correct` stands for every confirmation, observation and correction by others. */
  ghost predicate Step(s: Sys, date: string, e: Event, t: Sys) {
    match e
    case Arrive(role) => t == s.(actors := s.actors + [Actor(role, Ready, false)])
    case Claim(a, now) =>
      && At(s, a, Scheduled, Ready)
      && t == s.(row := Some(AfterClaim(s.row, "running", now)),
                 actors := s.actors[a := Actor(Scheduled, if Wins(s.row) then Holding else Over, Wins(s.row))])
    case Look(a, o, now) =>
      && At(s, a, Scheduled, Holding)
      && t == s.(row := Edited(s.row, row => AfterObserve(row, ScoreOf(o, date), o.streakDays, Stamp(o), now)))
    case Settle(a, o, now) =>
      && At(s, a, Scheduled, Holding) && Lit(o, date)
      && t == s.(row := Edited(s.row, row => AfterFinish(row, "skipped_external", None, "lit", now)),
                 actors := Moved(s, a, Over))
    case Send(a, o) =>
      && ((At(s, a, Scheduled, Holding) && !Lit(o, date)) || At(s, a, Forced, Ready))
      && t == s.(actors := Moved(s, a, Sent), turns := s.turns + [a])
    case Conclude(a, turn, now) =>
      var status := if turn.Some? then "failed" else "succeeded";
      && (At(s, a, Scheduled, Sent) || At(s, a, Forced, Sent))
      && t == s.(actors := Moved(s, a, Over),
                 row := if s.actors[a].role.Forced? then Some(AfterReset(s.row, status, turn, now))
                        else Edited(s.row, row => AfterFinish(row, status, turn, "", now)))
    case Correct(row) =>
      && s.row.Some? && row.runAttempts == s.row.value.runAttempts
      && t == s.(row := Some(row))
  }

  ghost predicate Run(states: seq<Sys>, date: string, events: seq<Event>) {
    && |states| == |events| + 1 && states[0].actors == [] && states[0].turns == []
    && forall i :: 0 <= i < |events| ==> Step(states[i], date, events[i], states[i + 1])
  }

  /** A turn is sent by a run in phase Sent or Over, and a scheduled one must have won. */
  ghost predicate Tallied(s: Sys) {
    && Distinct(s.turns)
    && (forall a :: a in s.turns ==> a < |s.actors| && (s.actors[a].phase.Sent? || s.actors[a].phase.Over?)
                                     && (s.actors[a].role.Scheduled? ==> s.actors[a].won))
    && forall a: nat :: a < |s.actors| && s.actors[a].phase.Holding? ==> s.actors[a].won
  }

  /** At most one run ever wins, and then the counter stays positive. */
  ghost predicate OneWinner(s: Sys) {
    && (forall a: nat, b: nat :: a < |s.actors| && b < |s.actors| && s.actors[a].won && s.actors[b].won ==> a == b)
    && forall a: nat :: a < |s.actors| && s.actors[a].won ==> s.row.Some? && s.row.value.runAttempts >= 1
  }

  /** The counter never goes back: once positive, it stays positive. */
  lemma CounterRises(s: Sys, date: string, e: Event, t: Sys)
    requires Step(s, date, e, t) && s.row.Some?
    ensures t.row.Some? && t.row.value.runAttempts >= s.row.value.runAttempts
  {
  }

  lemma StepTallies(s: Sys, date: string, e: Event, t: Sys)
    requires Tallied(s) && Step(s, date, e, t)
    ensures Tallied(t)
  {
    hide Lit;
  }

  lemma StepKeepsWinner(s: Sys, date: string, e: Event, t: Sys)
    requires OneWinner(s) && Step(s, date, e, t)
    ensures OneWinner(t)
  {
    if s.row.Some? {
      CounterRises(s, date, e, t);
    }
    hide Lit;
  }

  lemma {:induction false} RunKeeps(states: seq<Sys>, date: string, events: seq<Event>, n: nat)
    requires Run(states, date, events) && n <= |events|
    ensures Tallied(states[n]) && OneWinner(states[n])
  {
    if n > 0 {
      RunKeeps(states, date, events, n - 1);
      hide Step, Tallied, OneWinner;
      StepTallies(states[n - 1], date, events[n - 1], states[n]);
      StepKeepsWinner(states[n - 1], date, events[n - 1], states[n]);
    }
  }

  /** The `i`-th chat turn was sent by a run of that kind. */
  predicate SentBy(s: Sys, i: nat, role: Role) {
    i < |s.turns| && s.turns[i] < |s.actors| && s.actors[s.turns[i]].role == role
  }

  /** Whatever row the day starts from, the scheduled runs together send at most one chat turn. */
  lemma OnePaidTurn(states: seq<Sys>, date: string, events: seq<Event>, n: nat, i: nat, j: nat)
    requires Run(states, date, events) && n <= |events|
    requires SentBy(states[n], i, Scheduled) && SentBy(states[n], j, Scheduled)
    ensures i == j
  {
    RunKeeps(states, date, events, n);
    var s := states[n];
    assert s.turns[i] in s.turns && s.turns[j] in s.turns;
  }

  /** Every counter this code writes is at least one. */
  predicate Counting(row: Option<Row>) {
    row.Some? ==> row.value.runAttempts >= 1
  }

  lemma {:induction false} RunCounts(states: seq<Sys>, date: string, events: seq<Event>, n: nat)
    requires Run(states, date, events) && n <= |events| && Counting(states[0].row)
    ensures Counting(states[n].row)
  {
    if n > 0 {
      RunCounts(states, date, events, n - 1);
      hide Lit;
      if states[n - 1].row.Some? {
        CounterRises(states[n - 1], date, events[n - 1], states[n]);
      }
    }
  }

  /**
   From a day without a row, or with one this code wrote: a scheduled run that claims when any row
   exists loses the claim and never sends a turn.
   */
  lemma LateClaimNeverSends(states: seq<Sys>, date: string, events: seq<Event>, i: nat, n: nat)
    requires Run(states, date, events) && i < n <= |events| && Counting(states[0].row)
    requires events[i].Claim? && states[i].row.Some?
    ensures events[i].a !in states[n].turns
  {
    RunCounts(states, date, events, i);
    RunKeeps(states, date, events, i);
    assert Step(states[i], date, events[i], states[i + 1]);
    LoserStays(states, date, events, i + 1, n, events[i].a);
  }

  lemma {:induction false} LoserStays(states: seq<Sys>, date: string, events: seq<Event>, m: nat, n: nat, a: nat)
    requires Run(states, date, events) && m <= n <= |events|
    requires At(states[m], a, Scheduled, Over) && a !in states[m].turns
    ensures At(states[n], a, Scheduled, Over) && a !in states[n].turns
  {
    if m < n {
      LoserStays(states, date, events, m, n - 1, a);
      assert Step(states[n - 1], date, events[n - 1], states[n]);
      hide Lit;
    }
  }

  /** A row from before the counter existed carries zero, and a run that claims over it does send. */
  lemma LegacyRowIsClaimed(row: Row, date: string, o: Overview, now: string)
    requires row.runAttempts == 0 && !Lit(o, date)
    ensures exists states: seq<Sys>, events: seq<Event> :: Run(states, date, events) && states[0].row == Some(row)
              && events == [Arrive(Scheduled), Claim(0, now), Send(0, o)] && states[3].turns == [0]
  {
    hide Lit;
    var s0 := Sys(Some(row), [], []);
    var s1 := Sys(Some(row), [Actor(Scheduled, Ready, false)], []);
    var s2 := Sys(Some(AfterClaim(Some(row), "running", now)), [Actor(Scheduled, Holding, true)], []);
    var s3 := Sys(s2.row, [Actor(Scheduled, Sent, true)], [0]);
    var states, events := [s0, s1, s2, s3], [Arrive(Scheduled), Claim(0, now), Send(0, o)];
    assert Step(s0, date, events[0], s1);
    assert Step(s1, date, events[1], s2);
    assert Step(s2, date, events[2], s3);
    assert Run(states, date, events);
  }

  /** Forced runs are not held back, but each still sends a single turn. */
  lemma OneTurnEach(states: seq<Sys>, date: string, events: seq<Event>, n: nat)
    requires Run(states, date, events) && n <= |events|
    ensures Distinct(states[n].turns)
  {
    RunKeeps(states, date, events, n);
  }
}
