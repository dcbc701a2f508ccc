/** The batching telemetry writer, alone and under every interleaving of its callers. */
module EventWriters {
  import opened Chunks

  const DEFAULT_BATCH := 200

  datatype Event = Event(id: string, startedAt: string, finishedAt: Option<string>)

  /** Missing stamps are filled in before the event is queued. */
  function Completed(e: Event, now: string): Event {
    var started := if e.startedAt == "" then now else e.startedAt;
    Event(e.id, started, if e.finishedAt.None? then Some(started) else e.finishedAt)
  }

  /** A fired timer has its own flush under way but stays installed until some flush removes it. */
  datatype Timer = NoTimer | Armed | Fired

  /** What the writer's lock guards. */
  datatype Desk = Desk(pending: seq<Event>, timer: Timer, stopped: bool, written: nat, dropped: nat)

  predicate Overfull(d: Desk, maxBatch: nat) {
    |d.pending| + 1 >= maxBatch
  }

  function Queued(d: Desk, e: Event, maxBatch: nat): Desk {
    if d.stopped then d.(dropped := d.dropped + 1)
    else d.(pending := d.pending + [e], timer := if !Overfull(d, maxBatch) && d.timer.NoTimer? then Armed else d.timer)
  }

  function Emptied(d: Desk): Desk {
    d.(pending := [], timer := NoTimer)
  }

  /** A failed batch is counted as written and as dropped. */
  function Counted(d: Desk, size: nat, ok: bool): Desk {
    d.(written := d.written + size, dropped := if ok then d.dropped else d.dropped + size)
  }

  class EventWriter {
    const maxBatch: nat
    var pending: seq<Event>
    var timer: Timer
    var stopped: bool
    var written: nat
    var dropped: nat

    function Now(): Desk
      reads this
    {
      Desk(pending, timer, stopped, written, dropped)
    }

    constructor (given: int)
      ensures Now() == Desk([], NoTimer, false, 0, 0) && maxBatch == if given <= 0 then DEFAULT_BATCH else given
    {
      maxBatch := if given <= 0 then DEFAULT_BATCH else given;
      pending, timer, stopped, written, dropped := [], NoTimer, false, 0, 0;
    }

    /** The caller must flush when this says so. */
    method Enqueue(event: Event, now: string) returns (shouldFlush: bool)
      modifies this
      ensures Now() == Queued(old(Now()), Completed(event, now), maxBatch)
      ensures shouldFlush <==> !old(stopped) && Overfull(old(Now()), maxBatch)
    {
      var started := if event.startedAt == "" then now else event.startedAt;
      var finished := if event.finishedAt.None? then Some(started) else event.finishedAt;
      if stopped {
        dropped := dropped + 1;
        return false;
      }
      pending := pending + [Event(event.id, started, finished)];
      shouldFlush := |pending| >= maxBatch;
      if !shouldFlush && timer.NoTimer? {
        timer := Armed;
      }
    }

    method Take() returns (batch: seq<Event>)
      modifies this
      ensures batch == old(pending) && Now() == Emptied(old(Now()))
    {
      batch := pending;
      pending := [];
      if !timer.NoTimer? {
        timer := NoTimer;
      }
    }

    method Settle(batch: seq<Event>, ok: bool)
      modifies this
      ensures Now() == Counted(old(Now()), |batch|, ok)
    {
      written := written + |batch|;
      if !ok {
        dropped := dropped + |batch|;
      }
    }

    /** A flush with nobody in between: `ok` is whether the transaction went through. */
    method Flush(ok: bool) returns (stored: seq<Event>)
      modifies this
      ensures Now() == Counted(Emptied(old(Now())), |old(pending)|, ok)
      ensures stored == if ok then old(pending) else []
    {
      var batch := Take();
      if batch == [] {
        return [];
      }
      Settle(batch, ok);
      stored := if ok then batch else [];
    }

    method Close(ok: bool) returns (stored: seq<Event>)
      modifies this
      ensures Now() == Counted(Emptied(old(Now()).(stopped := true)), |old(pending)|, ok)
      ensures stored == if ok then old(pending) else []
    {
      stopped := true;
      stored := Flush(ok);
    }
  }

  // ---- interleavings ----

  /**
   `due` counts flushes that are owed: by a caller that filled the batch, or by a timer that fired.
   `closing` counts closers between their two steps. `accepted` and `taken` are the history of events
   queued and of batches taken; `settled` says which batches were counted, and `failed` which of those failed.
   */
  datatype Sys = Sys(desk: Desk, due: nat, closing: nat, closed: bool, accepted: seq<Event>, taken: seq<seq<Event>>,
                     settled: set<nat>, failed: set<nat>, refused: nat)

  datatype Move =
    | Enqueue(event: Event)
    | Fire
    | TakeDue
    | TakeNow
    | Stop
    | TakeLast
    | Settle(batch: nat, ok: bool)

  function TookBatch(s: Sys): Sys {
    s.(desk := Emptied(s.desk), taken := if s.desk.pending == [] then s.taken else s.taken + [s.desk.pending])
  }

  ghost predicate Step(s: Sys, maxBatch: nat, m: Move, t: Sys) {
    match m
    case Enqueue(event) =>
      t == if s.desk.stopped then s.(desk := Queued(s.desk, event, maxBatch), refused := s.refused + 1)
           else s.(desk := Queued(s.desk, event, maxBatch), accepted := s.accepted + [event],
                   due := s.due + if Overfull(s.desk, maxBatch) then 1 else 0)
    case Fire => s.desk.timer.Armed? && t == s.(desk := s.desk.(timer := Fired), due := s.due + 1)
    case TakeDue => s.due > 0 && t == TookBatch(s).(due := s.due - 1)
    case TakeNow => t == TookBatch(s)
    case Stop => t == s.(desk := s.desk.(stopped := true), closing := s.closing + 1)
    case TakeLast => s.closing > 0 && t == TookBatch(s).(closing := s.closing - 1, closed := true)
    case Settle(batch, ok) =>
      && batch < |s.taken| && batch !in s.settled
      && t == s.(desk := Counted(s.desk, |s.taken[batch]|, ok), settled := s.settled + {batch}, failed := if ok
                 then s.failed else s.failed + {batch})
  }

  function Flatten(batches: seq<seq<Event>>): seq<Event> {
    if batches == [] then [] else Flatten(batches[..|batches| - 1]) + batches[|batches| - 1]
  }

  /** The sizes of the batches whose index is in `chosen`. */
  function Size(batches: seq<seq<Event>>, chosen: set<nat>): nat {
    if batches == [] then 0
    else Size(batches[..|batches| - 1], chosen) + if |batches| - 1 in chosen then |batches[|batches| - 1]| else 0
  }

  /** The batches taken and not yet counted. */
  function InHand(s: Sys): set<nat> {
    set i: nat | i < |s.taken| && i !in s.settled
  }

  /** Every accepted event is in exactly one batch, or pending, in the order of acceptance; and the counters add up. */
  ghost predicate Conserves(s: Sys) {
    && s.accepted == Flatten(s.taken) + s.desk.pending
    && s.desk.written == Size(s.taken, s.settled)
    && s.desk.dropped == s.refused + Size(s.taken, s.failed)
    && s.failed <= s.settled && (forall i :: i in s.settled ==> i < |s.taken|)
  }

  /** Nothing waits for ever: pending events have an armed timer or a flush that is owed. */
  ghost predicate Attended(s: Sys) {
    && (s.desk.pending != [] ==> s.desk.timer.Armed? || s.due > 0 || s.closing > 0)
    && (s.desk.timer.Fired? ==> s.due > 0)
    && (s.closing > 0 || s.closed ==> s.desk.stopped)
    && (s.closed ==> s.desk.pending == [] && !s.desk.timer.Armed?)
  }

  ghost predicate Run(states: seq<Sys>, maxBatch: nat, moves: seq<Move>) {
    && |states| == |moves| + 1
    && states[0] == Sys(Desk([], NoTimer, false, 0, 0), 0, 0, false, [], [], {}, {}, 0)
    && forall i :: 0 <= i < |moves| ==> Step(states[i], maxBatch, moves[i], states[i + 1])
  }

  lemma {:induction false} SizeAdd(batches: seq<seq<Event>>, chosen: set<nat>, i: nat)
    requires i < |batches| && i !in chosen
    ensures Size(batches, chosen + {i}) == Size(batches, chosen) + |batches[i]|
  {
    if i == |batches| - 1 {
      SizeSame(batches[..i], chosen, chosen + {i});
    } else {
      SizeAdd(batches[..|batches| - 1], chosen, i);
    }
  }

  lemma {:induction false} SizeSame(batches: seq<seq<Event>>, a: set<nat>, b: set<nat>)
    requires forall i: nat :: i < |batches| ==> (i in a <==> i in b)
    ensures Size(batches, a) == Size(batches, b)
  {
    if batches != [] {
      SizeSame(batches[..|batches| - 1], a, b);
    }
  }

  lemma {:induction false} SizeSplits(batches: seq<seq<Event>>, a: set<nat>)
    ensures Size(batches, a) + Size(batches, set i: nat | i < |batches| && i !in a) == |Flatten(batches)|
  {
    if batches != [] {
      var front := batches[..|batches| - 1];
      SizeSplits(front, a);
      SizeSame(front, set i: nat | i < |front| && i !in a, set i: nat | i < |batches| && i !in a);
    }
  }

  lemma TakeConserves(s: Sys)
    requires Conserves(s)
    ensures Conserves(TookBatch(s))
  {
    var t := TookBatch(s);
    if s.desk.pending != [] {
      assert t.taken[..|t.taken| - 1] == s.taken;
    }
  }

  lemma StepConserves(s: Sys, maxBatch: nat, m: Move, t: Sys)
    requires Conserves(s) && Step(s, maxBatch, m, t)
    ensures Conserves(t)
  {
    hide Overfull;
    match m
    case Enqueue(event) =>
    case Fire =>
    case TakeDue => TakeConserves(s);
    case TakeNow => TakeConserves(s);
    case Stop =>
    case TakeLast => TakeConserves(s);
    case Settle(batch, ok) =>
      SizeAdd(s.taken, s.settled, batch);
      SizeAdd(s.taken, s.failed, batch);
  }

  lemma StepAttends(s: Sys, maxBatch: nat, m: Move, t: Sys)
    requires Attended(s) && Step(s, maxBatch, m, t)
    ensures Attended(t)
  {
  }

  lemma {:induction false} RunKeeps(states: seq<Sys>, maxBatch: nat, moves: seq<Move>, n: nat)
    requires Run(states, maxBatch, moves) && n <= |moves|
    ensures Conserves(states[n]) && Attended(states[n])
  {
    if n > 0 {
      RunKeeps(states, maxBatch, moves, n - 1);
      hide Step, Conserves, Attended;
      StepConserves(states[n - 1], maxBatch, moves[n - 1], states[n]);
      StepAttends(states[n - 1], maxBatch, moves[n - 1], states[n]);
    }
  }

  /** Accepted events are the counted ones, the pending ones, and those in batches still in hand. */
  lemma EventsAreConserved(states: seq<Sys>, maxBatch: nat, moves: seq<Move>, n: nat)
    requires Run(states, maxBatch, moves) && n <= |moves|
    ensures var s := states[n];
            && |s.accepted| == s.desk.written + |s.desk.pending| + Size(s.taken, InHand(s))
            && s.accepted == Flatten(s.taken) + s.desk.pending
            && s.desk.dropped + Size(s.taken, s.settled - s.failed) == s.refused + s.desk.written
            && (s.desk.pending != [] ==> s.desk.timer.Armed? || s.due > 0 || s.closing > 0)
  {
    RunKeeps(states, maxBatch, moves, n);
    var s := states[n];
    SizeSplits(s.taken, s.settled);
    SizeDifference(s.taken, s.settled, s.failed);
  }

  lemma {:induction false} SizeDifference(batches: seq<seq<Event>>, a: set<nat>, b: set<nat>)
    requires b <= a
    ensures Size(batches, a - b) + Size(batches, b) == Size(batches, a)
  {
    if batches != [] {
      SizeDifference(batches[..|batches| - 1], a, b);
    }
  }

  /** Once a closer has taken its batch nothing is pending ever again, and no timer is left to fire. */
  lemma {:induction false} ClosedStaysEmpty(states: seq<Sys>, maxBatch: nat, moves: seq<Move>, m: nat, n: nat)
    requires Run(states, maxBatch, moves) && m <= n <= |moves| && states[m].closed
    ensures var s := states[n];
            s.closed && s.desk.stopped && s.desk.pending == [] && !s.desk.timer.Armed?
              && s.accepted == states[m].accepted
  {
    RunKeeps(states, maxBatch, moves, n);
    if m < n {
      ClosedStaysEmpty(states, maxBatch, moves, m, n - 1);
      assert Step(states[n - 1], maxBatch, moves[n - 1], states[n]);
    }
  }

  /** No flush ever takes an empty batch. */
  lemma {:induction false} BatchesAreFull(states: seq<Sys>, maxBatch: nat, moves: seq<Move>, n: nat)
    requires Run(states, maxBatch, moves) && n <= |moves|
    ensures forall i :: 0 <= i < |states[n].taken| ==> states[n].taken[i] != []
  {
    if n > 0 {
      BatchesAreFull(states, maxBatch, moves, n - 1);
      assert Step(states[n - 1], maxBatch, moves[n - 1], states[n]);
      hide Queued, Counted;
    }
  }

  lemma {:induction false} SizeZeroIff(batches: seq<seq<Event>>, chosen: set<nat>)
    requires forall i :: 0 <= i < |batches| ==> batches[i] != []
    ensures Size(batches, chosen) == 0 <==> forall i: nat :: i < |batches| ==> i !in chosen
  {
    if batches != [] {
      SizeZeroIff(batches[..|batches| - 1], chosen);
    }
  }

  /**
   Closing does not wait for other flushes. Once closed, every accepted event is counted exactly when no
   other flush still holds a batch; and until then the difference is what those batches hold.
   */
  lemma CloseAccountsIff(states: seq<Sys>, maxBatch: nat, moves: seq<Move>, n: nat)
    requires Run(states, maxBatch, moves) && n <= |moves| && states[n].closed
    ensures var s := states[n];
            && |s.accepted| == s.desk.written + Size(s.taken, InHand(s))
            && (s.desk.written == |s.accepted| <==> InHand(s) == {})
  {
    var s := states[n];
    ClosedStaysEmpty(states, maxBatch, moves, n, n);
    EventsAreConserved(states, maxBatch, moves, n);
    BatchesAreFull(states, maxBatch, moves, n);
    SizeZeroIff(s.taken, InHand(s));
    hide *;
    HandEmptyIff(s);
  }

  lemma HandEmptyIff(s: Sys)
    ensures InHand(s) == {} <==> forall i: nat :: i < |s.taken| ==> i !in InHand(s)
  {
    if InHand(s) != {} {
      assert exists i: nat :: i in InHand(s);
    }
  }

  /** And that does happen: a batch another flush holds can still be unwritten when Close is done. */
  lemma CloseLeavesBatchesInHand(event: Event)
    ensures exists states: seq<Sys>, moves: seq<Move> :: Run(states, 2, moves)
              && moves == [Enqueue(event), TakeNow, Stop, TakeLast]
              && states[4].closed && InHand(states[4]) == {0} && states[4].desk.written == 0
  {
    var s0 := Sys(Desk([], NoTimer, false, 0, 0), 0, 0, false, [], [], {}, {}, 0);
    var s1 := s0.(desk := Desk([event], Armed, false, 0, 0), accepted := [event]);
    var s2 := s1.(desk := Desk([], NoTimer, false, 0, 0), taken := [[event]]);
    var s3 := s2.(desk := Desk([], NoTimer, true, 0, 0), closing := 1);
    var s4 := s3.(closing := 0, closed := true);
    var states, moves := [s0, s1, s2, s3, s4], [Enqueue(event), TakeNow, Stop, TakeLast];
    assert Step(s0, 2, moves[0], s1);
    assert Step(s1, 2, moves[1], s2);
    assert Step(s2, 2, moves[2], s3);
    assert Step(s3, 2, moves[3], s4);
    assert InHand(s4) == {0};
    assert Run(states, 2, moves);
  }
}
