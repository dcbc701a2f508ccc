/**
 One day's row under all its writers: confirmation passes and later corrections, which read it, decide, and
 write without looking again, and between them claims, observations, finishes and forced reruns.
 */
module Confirmations {
  import opened Chunks
  import opened ActiveDays

  /** A pass between its read and its write; `seen` counts the writes on record when it read. */
  datatype Pass =
    | Idle
    | Holding(read: Row, seen: nat)
    | Correcting(verdict: string, official: int, streak: Option<int>, seen: nat)
    | Over

  /** A write that touched the verdict: by whom, what its pass had seen by then, and what it said. */
  datatype Mark =
    | Confirmed(pass: nat, seen: nat, lit: bool, verdict: string)
    | Corrected(pass: nat, seen: nat, verdict: string)
    | Finished(verdict: string)
    | Rerun

  datatype Sys = Sys(row: Row, passes: seq<Pass>, log: seq<Mark>)

  datatype Event =
    | Begin
    | Read(j: nat)
    | Write(j: nat, o: Overview, now: string)
    | Check(j: nat, score: Option<real>)
    | Correct(j: nat, now: string)
    | Claim(now: string)
    | Observe(shown: Option<int>, streak: Option<int>, official: Option<string>, now: string)
    | Finish(status: string, code: Option<string>, confirmed: string, now: string)
    | Reset(status: string, code: Option<string>, now: string)

  /** What a correction decides to write when it reads the row, if anything. */
  function Correction(row: Row, score: Option<real>, seen: nat): Pass {
    if score.None? || row.status != "succeeded" then Over
    else
      var official := Trunc(score.value);
      if official > 0 && VerdictOf(row) != "lit" then Correcting("lit", official, row.streak, seen)
      else if official <= 0 && VerdictOf(row) in {"", "lit"} then Correcting("not_lit", official, row.streak, seen)
      else Over
  }

  ghost predicate Step(s: Sys, date: string, budget: int, e: Event, t: Sys) {
    match e
    case Begin => t == s.(passes := s.passes + [Idle])
    case Read(j) =>
      && j < |s.passes| && s.passes[j].Idle?
      && t == s.(passes := s.passes[j := if s.row.status != "succeeded" || Resolved(s.row) then Over
                                    else Holding(s.row, |s.log|)])
    case Write(j, o, now) =>
      && j < |s.passes| && s.passes[j].Holding?
      && var verdict := Verdict(s.passes[j].read, o, date, budget);
         t == Sys(AfterRecord(s.row, verdict, ScoreOf(o, date), o.streakDays, now), s.passes[j := Over],
                  s.log + [Confirmed(j, s.passes[j].seen, Lit(o, date), verdict)])
    case Check(j, score) =>
      && j < |s.passes| && s.passes[j].Idle?
      && t == s.(passes := s.passes[j := Correction(s.row, score, |s.log|)])
    case Correct(j, now) =>
      && j < |s.passes| && s.passes[j].Correcting?
      && var p := s.passes[j];
         t == Sys(AfterRecord(s.row, p.verdict, Some(p.official), p.streak, now), s.passes[j := Over],
                  s.log + [Corrected(j, p.seen, p.verdict)])
    case Claim(now) => t == s.(row := AfterClaim(Some(s.row), "running", now))
    case Observe(shown, streak, official, now) => t == s.(row := AfterObserve(s.row, shown, streak, official, now))
    case Finish(status, code, confirmed, now) =>
      t == s.(row := AfterFinish(s.row, status, code, confirmed, now),
              log := s.log + if confirmed != "" then [Finished(confirmed)] else [])
    case Reset(status, code, now) =>
      t == s.(row := AfterReset(Some(s.row), status, code, now), log := s.log + [Rerun])
  }

  ghost predicate Run(states: seq<Sys>, date: string, budget: int, events: seq<Event>) {
    && |states| == |events| + 1 && states[0].passes == [] && states[0].log == []
    && forall i :: 0 <= i < |events| ==> Step(states[i], date, budget, events[i], states[i + 1])
  }

  /** Undisturbed, a correction is the one of the step. */
  lemma CorrectionIsReconcile(row: Row, score: Option<real>, seen: nat, now: string)
    ensures var p := Correction(row, score, seen);
            Reconcile(row, score, now) ==
              if p.Correcting? then AfterRecord(row, p.verdict, Some(p.official), p.streak, now) else row
  {
  }

  // ---- what the log says about the row ----

  /** The verdict after the first `n` writes on record. */
  function VerdictAfter(first: Row, log: seq<Mark>, n: nat): string
    requires n <= |log|
  {
    if n == 0 then VerdictOf(first) else if log[n - 1].Rerun? then "" else log[n - 1].verdict
  }

  /** The passes that count by then: a rerun starts again at none. */
  function AttemptsAfter(first: Row, log: seq<Mark>, n: nat): int
    requires n <= |log|
  {
    if n == 0 then first.confirmAttempts
    else
      match log[n - 1]
      case Rerun => 0
      case Finished(_) => AttemptsAfter(first, log, n - 1)
      case _ => AttemptsAfter(first, log, n - 1) + 1
  }

  /**
   A pass writes only if the row was open when it read, and what it saw then decides: lit if the upstream
   said so, and not lit if the passes counted at its read, not at its write, used up the budget.
   */
  ghost predicate Sound(first: Row, log: seq<Mark>, budget: int, i: nat)
    requires i < |log|
  {
    log[i].Confirmed? ==>
      && log[i].seen <= i && VerdictAfter(first, log, log[i].seen) == ""
      && log[i].verdict == (if log[i].lit then "lit"
                            else if AttemptsAfter(first, log, log[i].seen) + 1 >= budget then "not_lit" else "")
  }

  ghost predicate Kept(first: Row, s: Sys, budget: int) {
    && VerdictOf(s.row) == VerdictAfter(first, s.log, |s.log|)
    && s.row.confirmAttempts == AttemptsAfter(first, s.log, |s.log|)
    && (forall j :: 0 <= j < |s.passes| && s.passes[j].Holding? ==> Fits(first, s.log, s.passes[j]))
    && forall i :: 0 <= i < |s.log| ==> Sound(first, s.log, budget, i)
  }

  /** The row a pass holds is what the log said when it read. */
  ghost predicate Fits(first: Row, log: seq<Mark>, p: Pass)
    requires p.Holding?
  {
    p.seen <= |log| && VerdictAfter(first, log, p.seen) == ""
      && p.read.confirmAttempts == AttemptsAfter(first, log, p.seen)
  }

  lemma {:induction false} EarlierKept(first: Row, log: seq<Mark>, more: seq<Mark>, n: nat)
    requires log <= more && n <= |log|
    ensures VerdictAfter(first, more, n) == VerdictAfter(first, log, n)
    ensures AttemptsAfter(first, more, n) == AttemptsAfter(first, log, n)
  {
    if n > 0 {
      EarlierKept(first, log, more, n - 1);
    }
  }

  lemma PastKept(first: Row, s: Sys, t: Sys, budget: int)
    requires Kept(first, s, budget) && s.log <= t.log
    ensures forall i :: 0 <= i < |s.log| ==> Sound(first, t.log, budget, i)
    ensures forall j :: 0 <= j < |s.passes| && s.passes[j].Holding? ==> Fits(first, t.log, s.passes[j])
  {
    forall n: nat | n <= |s.log|
      ensures VerdictAfter(first, t.log, n) == VerdictAfter(first, s.log, n)
      ensures AttemptsAfter(first, t.log, n) == AttemptsAfter(first, s.log, n)
    {
      EarlierKept(first, s.log, t.log, n);
    }
    hide VerdictAfter, AttemptsAfter;
    forall i | 0 <= i < |s.log| ensures Sound(first, t.log, budget, i) {
      assert Sound(first, s.log, budget, i);
    }
  }

  lemma StepKeeps(first: Row, s: Sys, date: string, budget: int, e: Event, t: Sys)
    requires Kept(first, s, budget) && Step(s, date, budget, e, t)
    ensures Kept(first, t, budget) && s.log <= t.log
  {
    hide Lit, ScoreOf;
    PastKept(first, s, t, budget);
    EarlierKept(first, s.log, t.log, |s.log|);
  }

  lemma {:induction false} RunKeeps(states: seq<Sys>, date: string, budget: int, events: seq<Event>, n: nat)
    requires Run(states, date, budget, events) && n <= |events|
    ensures Kept(states[0].row, states[n], budget)
  {
    if n > 0 {
      RunKeeps(states, date, budget, events, n - 1);
      hide Step, Kept;
      StepKeeps(states[0].row, states[n - 1], date, budget, events[n - 1], states[n]);
    } else {
      hide Step, Verdict, Lit;
    }
  }

  // ---- who decides ----

  /** However the writers overlap, the last write decides, and each pass's by what it saw when it read. */
  lemma LastWriteDecides(states: seq<Sys>, date: string, budget: int, events: seq<Event>, n: nat)
    requires Run(states, date, budget, events) && n <= |events|
    ensures var (first, s) := (states[0].row, states[n]);
            && VerdictOf(s.row) == VerdictAfter(first, s.log, |s.log|)
            && s.row.confirmAttempts == AttemptsAfter(first, s.log, |s.log|)
            && forall i :: 0 <= i < |s.log| ==> Sound(first, s.log, budget, i)
  {
    RunKeeps(states, date, budget, events, n);
  }

  /** A verdict on record is overwritten by a pass only if that had read the row before it was stored. */
  lemma OverwriterReadEarlier(states: seq<Sys>, date: string, budget: int, events: seq<Event>, n: nat, i: nat)
    requires Run(states, date, budget, events) && n <= |events| && i + 1 < |states[n].log|
    requires !states[n].log[i].Rerun? && states[n].log[i].verdict != "" && states[n].log[i + 1].Confirmed?
    ensures states[n].log[i + 1].seen <= i
  {
    RunKeeps(states, date, budget, events, n);
    assert Sound(states[0].row, states[n].log, budget, i + 1);
  }

  /** When every pass reads after the write before its own, no pass writes behind a verdict. */
  lemma WithoutOverlapVerdictsStay(states: seq<Sys>, date: string, budget: int, events: seq<Event>, n: nat, i: nat)
    requires Run(states, date, budget, events) && n <= |events| && i < |states[n].log|
    requires !states[n].log[i].Rerun? && states[n].log[i].verdict != ""
    requires forall k :: 0 <= k < |states[n].log| && states[n].log[k].Confirmed? ==> states[n].log[k].seen == k
    ensures i + 1 < |states[n].log| ==> !states[n].log[i + 1].Confirmed?
    ensures i + 1 == |states[n].log| ==> VerdictOf(states[n].row) == states[n].log[i].verdict
  {
    LastWriteDecides(states, date, budget, events, n);
    if i + 1 < |states[n].log| && states[n].log[i + 1].Confirmed? {
      OverwriterReadEarlier(states, date, budget, events, n, i);
    }
  }

  // ---- reruns ----

  /** A pass in hand stays in hand; one that is not reads later, and sees what was written until then. */
  lemma {:induction false} InHand(states: seq<Sys>, date: string, budget: int, events: seq<Event>, m: nat, n: nat,
                                  j: nat)
    requires Run(states, date, budget, events) && m <= n <= |events|
    requires j < |states[n].passes| && states[n].passes[j].Holding?
    ensures if j < |states[m].passes| && states[m].passes[j].Holding? then states[n].passes[j] == states[m].passes[j]
            else states[n].passes[j].seen >= |states[m].log|
    ensures |states[m].log| <= |states[n].log|
  {
    if m < n {
      var s, t := states[n - 1], states[n];
      assert Step(s, date, budget, events[n - 1], t);
      hide Lit, ScoreOf, Verdict, Correction;
      if j < |s.passes| && s.passes[j].Holding? {
        InHand(states, date, budget, events, m, n - 1, j);
      } else {
        LogGrows(states, date, budget, events, m, n - 1);
        if j < |states[m].passes| {
          StillInHand(states, date, budget, events, m, n - 1, j);
        }
      }
    }
  }

  lemma {:induction false} LogGrows(states: seq<Sys>, date: string, budget: int, events: seq<Event>, m: nat, n: nat)
    requires Run(states, date, budget, events) && m <= n <= |events|
    ensures |states[m].log| <= |states[n].log| && |states[m].passes| <= |states[n].passes|
  {
    if m < n {
      LogGrows(states, date, budget, events, m, n - 1);
      assert Step(states[n - 1], date, budget, events[n - 1], states[n]);
      hide Lit, ScoreOf, Verdict, Correction;
    }
  }

  /** A pass that left the hand never comes back to it. */
  lemma {:induction false} StillInHand(states: seq<Sys>, date: string, budget: int, events: seq<Event>, m: nat, n: nat,
                                       j: nat)
    requires Run(states, date, budget, events) && m <= n <= |events| && j < |states[m].passes|
    ensures |states[m].passes| <= |states[n].passes|
    ensures !states[m].passes[j].Idle? ==> !states[n].passes[j].Idle?
  {
    if m < n {
      StillInHand(states, date, budget, events, m, n - 1, j);
      assert Step(states[n - 1], date, budget, events[n - 1], states[n]);
      hide Lit, ScoreOf, Verdict, Correction;
    }
  }

  /**
   A verdict stored after a rerun comes from a pass that had read the day before it exactly when that pass
   was in hand at the rerun. It then settles the rerun day, not by the passes since, but exactly when it saw
   the day lit or the passes counted before the rerun used up the budget.
   */
  lemma StaleVerdictIff(states: seq<Sys>, date: string, budget: int, events: seq<Event>, m: nat, n: nat)
    requires Run(states, date, budget, events) && m < n < |events| && events[m].Reset? && events[n].Write?
    ensures var (j, s, t) := (events[n].j, states[m], states[n + 1]);
            && |t.log| > |s.log| && t.log[|t.log| - 1].Confirmed? && t.log[|t.log| - 1].pass == j
            && (t.log[|t.log| - 1].seen <= |s.log| <==> j < |s.passes| && s.passes[j].Holding?)
            && (j < |s.passes| && s.passes[j].Holding? ==>
                 (VerdictOf(t.row) != "" <==>
                   Lit(events[n].o, date) || s.passes[j].read.confirmAttempts + 1 >= budget))
  {
    var j := events[n].j;
    assert Step(states[n], date, budget, events[n], states[n + 1]);
    assert Step(states[m], date, budget, events[m], states[m + 1]);
    RunKeeps(states, date, budget, events, m);
    hide Lit, ScoreOf;
    InHand(states, date, budget, events, m + 1, n, j);
  }

  /** A day is given up before its own passes used up the budget only by a pass that had read it before a rerun. */
  lemma TooSoonOnlyByStalePass(states: seq<Sys>, date: string, budget: int, events: seq<Event>, n: nat, i: nat)
    requires Run(states, date, budget, events) && n <= |events| && i < |states[n].log|
    requires var m := states[n].log[i]; m.Confirmed? && m.verdict == "not_lit"
    requires AttemptsAfter(states[0].row, states[n].log, i) + 1 < budget
    ensures exists r :: states[n].log[i].seen <= r < i && states[n].log[r].Rerun?
  {
    RunKeeps(states, date, budget, events, n);
    var (first, log) := (states[0].row, states[n].log);
    assert Sound(first, log, budget, i);
    if forall r :: log[i].seen <= r < i ==> !log[r].Rerun? {
      AttemptsRise(first, log, log[i].seen, i);
    }
  }

  lemma {:induction false} AttemptsRise(first: Row, log: seq<Mark>, a: nat, b: nat)
    requires a <= b <= |log| && forall r :: a <= r < b ==> !log[r].Rerun?
    ensures AttemptsAfter(first, log, a) <= AttemptsAfter(first, log, b)
  {
    if a < b {
      AttemptsRise(first, log, a, b - 1);
    }
  }

  /** It does happen: with a budget of three, the first write after a rerun already says not lit. */
  lemma RerunIsGivenUpAtOnce(row: Row, date: string, now: string)
    requires row.status == "succeeded" && VerdictOf(row) == "" && row.confirmAttempts == 2
    ensures var o := Overview(None, None, "", None);
            var rerun := AfterReset(Some(row), "succeeded", None, now);
            var last := AfterRecord(rerun, "not_lit", None, None, now);
            && Run([Sys(row, [], []), Sys(row, [Idle], []), Sys(row, [Holding(row, 0)], []),
                    Sys(rerun, [Holding(row, 0)], [Rerun]),
                    Sys(last, [Over], [Rerun, Confirmed(0, 0, false, "not_lit")])],
                   date, 3, [Begin, Read(0), Reset("succeeded", None, now), Write(0, o, now)])
            && last.status == "succeeded" && VerdictOf(last) == "not_lit" && last.confirmAttempts == 1
  {
    var o := Overview(None, None, "", None);
    var rerun := AfterReset(Some(row), "succeeded", None, now);
    var last := AfterRecord(rerun, "not_lit", None, None, now);
    var states := [Sys(row, [], []), Sys(row, [Idle], []), Sys(row, [Holding(row, 0)], []),
                   Sys(rerun, [Holding(row, 0)], [Rerun]),
                   Sys(last, [Over], [Rerun, Confirmed(0, 0, false, "not_lit")])];
    var events := [Begin, Read(0), Reset("succeeded", None, now), Write(0, o, now)];
    assert "succeeded"[0] == 's';
    assert [Rerun] + [Confirmed(0, 0, false, "not_lit")] == [Rerun, Confirmed(0, 0, false, "not_lit")];
    forall i | 0 <= i < |events| ensures Step(states[i], date, 3, events[i], states[i + 1]) {
      assert i == 0 || i == 1 || i == 2 || i == 3;
    }
  }
}
