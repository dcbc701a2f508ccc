/** The one-turn-per-day lock and its confirmation, on the stored day rows. */
module ActiveDays {
  import opened Chunks
  import opened Defaults
  import opened Sorting

  type Key = (string, string, string, string)

  datatype Row = Row(
    status: string, errorCode: Option<string>, started: string, finished: Option<string>, updated: string,
    confirmed: Option<string>, confirmedAt: Option<string>, confirmAttempts: int, runAttempts: int,
    score: Option<int>, streak: Option<int>, officialUpdated: Option<string>, officialObserved: Option<string>)

  // ---- one write each ----

  function Blank(status: string, now: string): Row {
    Row(OrDefault(status, "running"), None, now, None, now, None, None, 0, 1, None, None, None, None)
  }

  function AfterClaim(row: Option<Row>, status: string, now: string): Row {
    if row.None? then Blank(status, now) else row.value.(runAttempts := row.value.runAttempts + 1, updated := now)
  }

  /** The claim reads its own counter back: one means this call won the day. */
  predicate Wins(row: Option<Row>) {
    AfterClaim(row, "", "").runAttempts == 1
  }

  function AfterFinish(row: Row, status: string, code: Option<string>, confirmed: string, now: string): Row {
    row.(status := status, errorCode := code, finished := Some(now), updated := now,
         confirmed := if confirmed != "" then Some(confirmed) else row.confirmed,
         confirmedAt := if confirmed != "" then Some(now) else row.confirmedAt)
  }

  function OrElse<T>(a: Option<T>, b: Option<T>): Option<T> {
    if a.Some? then a else b
  }

  function AfterRecord(row: Row, confirmed: string, score: Option<int>, streak: Option<int>, now: string): Row {
    row.(confirmed := Some(confirmed), confirmedAt := Some(now), confirmAttempts := row.confirmAttempts + 1,
         updated := now,
         score := OrElse(score, row.score), streak := OrElse(streak, row.streak), officialObserved := Some(now))
  }

  function AfterObserve(row: Row, score: Option<int>, streak: Option<int>, official: Option<string>, now: string): Row {
    row.(score := score, streak := streak, officialUpdated := official, officialObserved := Some(now), updated := now)
  }

  function AfterReset(row: Option<Row>, status: string, code: Option<string>, now: string): Row {
    if row.None? then Blank(status, now).(errorCode := code, finished := Some(now))
    else row.value.(status := OrDefault(status, "running"), errorCode := code, finished := Some(now), updated := now,
                    confirmed := None, confirmedAt := None, confirmAttempts := 0)
  }

  /** A claim wins exactly when there is no row, or a row that recorded no attempt. */
  lemma WinsIff(row: Option<Row>)
    ensures Wins(row) <==> row.None? || row.value.runAttempts == 0
  {
  }

  // ---- the official snapshot ----

  datatype Cell = Cell(date: string, score: Option<real>)

  datatype Today = Today(date: string, isActive: bool, score: Option<real>, updatedAt: string)

  /** A missing cell list and an empty one are different things to `recordObservation`. */
  datatype Overview = Overview(cells: Option<seq<Cell>>, today: Option<Today>, updatedAt: string,
                               streakDays: Option<int>)

  function CellsOf(o: Overview): seq<Cell> {
    if o.cells.Some? then o.cells.value else []
  }

  function FindCell(cells: seq<Cell>, date: string): Option<Cell> {
    if cells == [] then None else if cells[0].date == date then Some(cells[0]) else FindCell(cells[1..], date)
  }

  predicate Positive(score: Option<real>) {
    score.Some? && score.value > 0.0
  }

  /** The heatmap cell of the date decides; the upstream's own "today" only where there is none. */
  predicate Lit(o: Overview, date: string) {
    var cell := FindCell(CellsOf(o), date);
    if cell.Some? then Positive(cell.value.score)
    else o.today.Some? && o.today.value.date == date && (o.today.value.isActive || Positive(o.today.value.score))
  }

  /** Conversion to an integer drops the fraction. */
  function Trunc(x: real): int {
    if x >= 0.0 then x.Floor else -((-x).Floor)
  }

  function ScoreOf(o: Overview, date: string): Option<int> {
    var cell := FindCell(CellsOf(o), date);
    if cell.Some? && cell.value.score.Some? then Some(Trunc(cell.value.score.value)) else None
  }

  method TodayLit(o: Overview, date: string) returns (lit: bool)
    ensures lit == Lit(o, date)
  {
    var cells := CellsOf(o);
    for i := 0 to |cells|
      invariant FindCell(cells, date) == FindCell(cells[i..], date)
    {
      if cells[i].date == date {
        return Positive(cells[i].score);
      }
      assert cells[i..][1..] == cells[i + 1..];
    }
    if o.today.Some? && o.today.value.date == date {
      return o.today.value.isActive || Positive(o.today.value.score);
    }
    return false;
  }

  method OfficialPair(o: Overview, date: string) returns (score: Option<int>, streak: Option<int>)
    ensures score == ScoreOf(o, date) && streak == o.streakDays
  {
    score, streak := None, o.streakDays;
    var cells := CellsOf(o);
    for i := 0 to |cells|
      invariant FindCell(cells, date) == FindCell(cells[i..], date) && score == None
    {
      if cells[i].date == date {
        if cells[i].score.Some? {
          score := Some(Trunc(cells[i].score.value));
        }
        return;
      }
      assert cells[i..][1..] == cells[i + 1..];
    }
  }

  /** The check before a turn and the check after the fact disagree exactly on a score strictly between zero and one. */
  lemma VerdictsDisagreeIff(score: real)
    ensures Positive(Some(score)) != (Trunc(score) > 0) <==> 0.0 < score < 1.0
  {
  }

  // ---- confirmation ----

  predicate Resolved(row: Row) {
    row.confirmed.Some? && row.confirmed.value != ""
  }

  /** What one confirmation pass writes, having read `row`. */
  function Verdict(row: Row, o: Overview, date: string, budget: int): string {
    if Lit(o, date) then "lit" else if row.confirmAttempts + 1 >= budget then "not_lit" else ""
  }

  /** A whole confirmation pass with nothing in between its read and its write. */
  function Confirm(row: Row, o: Overview, date: string, budget: int, now: string): Row {
    if row.status != "succeeded" || Resolved(row) then row
    else AfterRecord(row, Verdict(row, o, date, budget), ScoreOf(o, date), o.streakDays, now)
  }

  function Confirms(row: Row, seen: seq<Overview>, date: string, budget: int, now: string): Row {
    if seen == [] then row
    else Confirm(Confirms(row, seen[..|seen| - 1], date, budget, now), seen[|seen| - 1], date, budget, now)
  }

  predicate AnyLit(seen: seq<Overview>, date: string) {
    exists i :: 0 <= i < |seen| && Lit(seen[i], date)
  }

  function Least(a: int, b: int): int {
    if a <= b then a else b
  }

  /** The passes that count: at least one, at most the budget. */
  function Counting(seen: seq<Overview>, budget: int): seq<Overview> {
    seen[..Least(|seen|, if budget < 1 then 1 else budget)]
  }

  function VerdictOf(row: Row): string {
    if row.confirmed.Some? then row.confirmed.value else ""
  }

  function Expected(seen: seq<Overview>, date: string, budget: int): string {
    if AnyLit(Counting(seen, budget), date) then "lit"
    else if |seen| >= (if budget < 1 then 1 else budget) then "not_lit"
    else ""
  }

  /**
   Confirming a finished day once per pass: it is lit exactly when one of the first `budget` passes saw
   it lit, not lit exactly when that many passes saw nothing, and open until then. Later passes change nothing.
   */
  lemma {:induction false} ConfirmationVerdict(row: Row, seen: seq<Overview>, date: string, budget: int, now: string)
    requires row.status == "succeeded" && VerdictOf(row) == "" && row.confirmAttempts == 0
    ensures var after := Confirms(row, seen, date, budget, now);
            && VerdictOf(after) == Expected(seen, date, budget)
            && (VerdictOf(after) == "" ==> after.confirmAttempts == |seen|)
            && after.status == "succeeded" && after.runAttempts == row.runAttempts
  {
    if seen != [] {
      var front, last := seen[..|seen| - 1], seen[|seen| - 1];
      ConfirmationVerdict(row, front, date, budget, now);
      assert seen == front + [last];
      ExpectedGrows(front, last, date, budget);
      hide Lit, Expected, AfterRecord, ScoreOf;
      ConfirmOnce(Confirms(row, front, date, budget, now), last, date, budget, now);
    } else {
      assert Counting(seen, budget) == [];
    }
  }

  lemma ConfirmOnce(row: Row, o: Overview, date: string, budget: int, now: string)
    requires row.status == "succeeded"
    ensures var after := Confirm(row, o, date, budget, now);
            && VerdictOf(after) == (if VerdictOf(row) != "" then VerdictOf(row) else Verdict(row, o, date, budget))
            && after.confirmAttempts == row.confirmAttempts + (if VerdictOf(row) != "" then 0 else 1)
            && after.status == "succeeded" && after.runAttempts == row.runAttempts
  {
  }

  lemma ExpectedGrows(front: seq<Overview>, last: Overview, date: string, budget: int)
    ensures Expected(front + [last], date, budget) ==
              if Expected(front, date, budget) != "" then Expected(front, date, budget)
              else if Lit(last, date) then "lit"
              else if |front| + 1 >= budget then "not_lit" else ""
  {
    var seen, limit := front + [last], if budget < 1 then 1 else budget;
    hide Lit;
    if |seen| <= limit {
      assert Counting(seen, budget) == seen && Counting(front, budget) == front;
      AnyLitGrows(front, last, date);
    } else {
      assert Counting(seen, budget) == Counting(front, budget);
    }
  }

  lemma AnyLitGrows(seen: seq<Overview>, last: Overview, date: string)
    ensures AnyLit(seen + [last], date) <==> AnyLit(seen, date) || Lit(last, date)
  {
    if AnyLit(seen, date) {
      var i :| 0 <= i < |seen| && Lit(seen[i], date);
      assert (seen + [last])[i] == seen[i];
    }
    if Lit(last, date) {
      assert (seen + [last])[|seen|] == last;
    }
    if AnyLit(seen + [last], date) {
      var i :| 0 <= i < |seen| + 1 && Lit((seen + [last])[i], date);
      assert i < |seen| ==> Lit(seen[i], date);
    }
  }

  /**
   A day just finished, and a day rerun after any verdict, both start the confirmation afresh; the rerun
   keeps when the day began, how often it ran and what the upstream showed.
   */
  lemma FinishedDaysAreConfirmable(row: Row, seen: seq<Overview>, date: string, budget: int, now: string)
    ensures var first := AfterFinish(AfterClaim(None, "running", now), "succeeded", None, "", now);
            VerdictOf(Confirms(first, seen, date, budget, now)) == Expected(seen, date, budget)
    ensures var rerun := AfterReset(Some(row), "succeeded", None, now);
            && VerdictOf(Confirms(rerun, seen, date, budget, now)) == Expected(seen, date, budget)
            && rerun.started == row.started && rerun.runAttempts == row.runAttempts && rerun.score == row.score
            && rerun.finished == Some(now)
  {
    ConfirmationVerdict(AfterFinish(AfterClaim(None, "running", now), "succeeded", None, "", now), seen, date,
                        budget, now);
    assert "succeeded"[0] == 's' && !IsSpace('s');
    ConfirmationVerdict(AfterReset(Some(row), "succeeded", None, now), seen, date, budget, now);
  }

  /**
   Of two passes that read the same open row the second write decides: the day ends up lit exactly when that
   one saw it lit. So a "lit" is lost exactly when only the first saw it, while one after the other would keep it.
   */
  lemma OverlappingPassLosesLit(row: Row, first: Overview, second: Overview, date: string, budget: int, now: string)
    requires row.status == "succeeded" && !Resolved(row)
    ensures var one := AfterRecord(row, Verdict(row, first, date, budget), ScoreOf(first, date), first.streakDays, now);
            var two := AfterRecord(one, Verdict(row, second, date, budget), ScoreOf(second, date), second.streakDays,
                                   now);
            var serial := Confirm(Confirm(row, first, date, budget, now), second, date, budget, now);
            && (VerdictOf(two) == "lit" <==> Lit(second, date))
            && (VerdictOf(one) == "lit" <==> Lit(first, date))
            && (VerdictOf(one) == "lit" && VerdictOf(two) != "lit" <==> Lit(first, date) && !Lit(second, date))
            && (Lit(first, date) ==> VerdictOf(serial) == "lit")
  {
    hide Lit, ScoreOf;
  }

  // ---- retroactive correction ----

  /** `score` is the official score of the row's own date, if its heatmap cell carries one. */
  function Reconcile(row: Row, score: Option<real>, now: string): Row {
    if score.None? || row.status != "succeeded" then row
    else
      var official := Trunc(score.value);
      var confirmed := if row.confirmed.Some? then row.confirmed.value else "";
      if official > 0 && confirmed != "lit" then AfterRecord(row, "lit", Some(official), row.streak, now)
      else if official <= 0 && (confirmed == "" || confirmed == "lit")
        then AfterRecord(row, "not_lit", Some(official), row.streak, now)
      else row
  }

  /** Afterwards the verdict is the official one, and correcting again writes nothing. */
  lemma ReconcileSettles(row: Row, score: Option<real>, now: string, later: string)
    requires row.confirmed in {None, Some(""), Some("lit"), Some("not_lit")}
    ensures var after := Reconcile(row, score, now);
            && (score.Some? && row.status == "succeeded" ==>
                after.confirmed == Some(if Trunc(score.value) > 0 then "lit" else "not_lit"))
            && Reconcile(after, score, later) == after
            && after.runAttempts == row.runAttempts && after.status == row.status
  {
  }

  // ---- the table and the step that uses it ----

  function Get(rows: map<Key, Row>, key: Key): Option<Row> {
    if key in rows then Some(rows[key]) else None
  }

  /** An update touches the row if it is there, and nothing else. */
  function Edit(rows: map<Key, Row>, key: Key, edit: Row -> Row): map<Key, Row> {
    if key in rows then rows[key := edit(rows[key])] else rows
  }

  class DayTable {
    var rows: map<Key, Row>

    method Claim(key: Key, status: string, now: string) returns (claimed: bool)
      modifies this
      ensures rows == old(rows)[key := AfterClaim(Get(old(rows), key), status, now)]
      ensures claimed == Wins(Get(old(rows), key))
    {
      if key in rows {
        rows := rows[key := rows[key].(runAttempts := rows[key].runAttempts + 1, updated := now)];
      } else {
        rows := rows[key := Blank(status, now)];
      }
      var runs := rows[key].runAttempts;
      claimed := runs == 1;
    }

    method Finish(key: Key, status: string, code: Option<string>, confirmed: string, now: string)
      modifies this
      ensures rows == Edit(old(rows), key, row => AfterFinish(row, status, code, confirmed, now))
    {
      if key in rows {
        var row := rows[key].(status := status, errorCode := code, finished := Some(now), updated := now);
        if confirmed != "" {
          row := row.(confirmed := Some(confirmed), confirmedAt := Some(now));
        }
        rows := rows[key := row];
      }
    }

    method RecordConfirmation(key: Key, confirmed: string, score: Option<int>, streak: Option<int>, now: string)
      modifies this
      ensures rows == Edit(old(rows), key, row => AfterRecord(row, confirmed, score, streak, now))
    {
      if key in rows {
        var row := rows[key].(confirmed := Some(confirmed), confirmedAt := Some(now), updated := now,
                              officialObserved := Some(now));
        row := row.(confirmAttempts := row.confirmAttempts + 1);
        if score.Some? {
          row := row.(score := score);
        }
        if streak.Some? {
          row := row.(streak := streak);
        }
        rows := rows[key := row];
      }
    }

    method Observe(key: Key, score: Option<int>, streak: Option<int>, official: Option<string>, now: string)
      modifies this
      ensures rows == Edit(old(rows), key, row => AfterObserve(row, score, streak, official, now))
    {
      if key in rows {
        rows := rows[key := rows[key].(score := score, streak := streak, officialUpdated := official,
                                       officialObserved := Some(now), updated := now)];
      }
    }

    method Reset(key: Key, status: string, code: Option<string>, now: string)
      modifies this
      ensures rows == old(rows)[key := AfterReset(Get(old(rows), key), status, code, now)]
    {
      if key in rows {
        rows := rows[key := rows[key].(status := OrDefault(status, "running"), errorCode := code, finished := Some(now),
                                       updated := now, confirmed := None, confirmedAt := None, confirmAttempts := 0)];
      } else {
        rows := rows[key := Blank(status, now).(errorCode := code, finished := Some(now))];
      }
    }
  }

  /** The stamp an observation stores: the heatmap's own, or that of its "today". */
  function Stamp(o: Overview): Option<string> {
    if o.updatedAt != "" then Some(o.updatedAt)
    else if o.today.Some? && o.today.value.updatedAt != "" then Some(o.today.value.updatedAt)
    else None
  }

  function Observed(rows: map<Key, Row>, key: Key, o: Overview, now: string): map<Key, Row> {
    if o.cells.None? && o.streakDays.None? then rows
    else Edit(rows, key, row => AfterObserve(row, ScoreOf(o, key.2), o.streakDays, Stamp(o), now))
  }

  function Reconciled(rows: map<Key, Row>, yesterday: Key, o: Overview, now: string): map<Key, Row> {
    var cell := FindCell(CellsOf(o), yesterday.2);
    Edit(rows, yesterday, row => Reconcile(row, if cell.Some? then cell.value.score else None, now))
  }

  /** How the chat turn ended: no error code, or one. */
  type TurnResult = Option<string>

  /** The whole table after one undisturbed run of the step. */
  function AfterStep(rows: map<Key, Row>, key: Key, yesterday: Key, o: Overview, force: bool, turn: TurnResult,
                     now: string): map<Key, Row> {
    if force then rows[key := AfterReset(Get(rows, key), if turn.Some? then "failed" else "succeeded", turn, now)]
    else
      var claimed := rows[key := AfterClaim(Get(rows, key), "running", now)];
      if !Wins(Get(rows, key)) then claimed
      else
        var seen := Reconciled(Observed(claimed, key, o, now), yesterday, o, now);
        Edit(seen, key, row => AfterFinish(row, if Lit(o, key.2) then "skipped_external"
                                           else if turn.Some? then "failed" else "succeeded",
                                           if Lit(o, key.2) then None else turn, if Lit(o, key.2) then "lit"
                                             else "", now))
  }

  /** What a run leaves of its day: a forced one always its outcome, a scheduled one only if it won the claim. */
  lemma StepLeaves(rows: map<Key, Row>, key: Key, yesterday: Key, o: Overview, force: bool, turn: TurnResult,
                   now: string)
    requires key != yesterday
    ensures var (was, after) := (Get(rows, key), AfterStep(rows, key, yesterday, o, force, turn, now));
            && key in after
            && var row := after[key];
            && (force || Wins(was) ==>
                 && row.finished == Some(now) && row.updated == now
                 && row.status == (if !force && Lit(o, key.2) then "skipped_external"
                                   else if turn.Some? then "failed" else "succeeded")
                 && row.errorCode == (if !force && Lit(o, key.2) then None else turn))
            && (force ==> VerdictOf(row) == "" && row.confirmAttempts == 0)
            && (!force && Wins(was) && Lit(o, key.2) ==> VerdictOf(row) == "lit")
            && (!force && !Wins(was) ==> row == was.value.(runAttempts := was.value.runAttempts + 1, updated := now))
            && forall k :: k in rows && k != key && (force || !Wins(was) || k != yesterday) ==>
                 k in after && after[k] == rows[k]
  {
    assert "failed"[0] == 'f' && "succeeded"[0] == 's' && !IsSpace('f') && !IsSpace('s');
    hide Lit, FindCell, ScoreOf, Reconcile;
  }

  /** What a confirmation pass reports. */
  function Answer(row: Option<Row>, o: Overview, date: string, budget: int): string {
    if row.None? || row.value.status != "succeeded" then "skip_irrelevant"
    else if Resolved(row.value) then "confirmed"
    else if Verdict(row.value, o, date, budget) == "" then "pending"
    else Verdict(row.value, o, date, budget)
  }

  class Automation {
    const days: DayTable

    constructor (days: DayTable)
      ensures this.days == days
    {
      this.days := days;
    }

    /** Without force a turn is spent only by the run that created the day, and only on a day not lit yet. */
    method ActiveDay(key: Key, yesterday: Key, o: Overview, force: bool, turn: TurnResult, now: string)
      returns (sent: bool)
      modifies days
      ensures sent <==> force || (Wins(Get(old(days.rows), key)) && !Lit(o, key.2))
      ensures days.rows == AfterStep(old(days.rows), key, yesterday, o, force, turn, now)
    {
      hide AfterReset, AfterFinish, AfterObserve, Lit, Reconcile, FindCell, ScoreOf;
      if force {
        days.Reset(key, if turn.Some? then "failed" else "succeeded", turn, now);
        return true;
      }
      var claimed := days.Claim(key, "running", now);
      if !claimed {
        return false;
      }
      RecordObservation(key, o, now);
      ReconcilePreviousDay(yesterday, o, now);
      var lit := TodayLit(o, key.2);
      if lit {
        days.Finish(key, "skipped_external", None, "lit", now);
        return false;
      }
      days.Finish(key, if turn.Some? then "failed" else "succeeded", turn, "", now);
      return true;
    }

    method RecordObservation(key: Key, o: Overview, now: string)
      modifies days
      ensures days.rows == Observed(old(days.rows), key, o, now)
    {
      if o.cells.None? && o.streakDays.None? {
        return;
      }
      var score, streak := OfficialPair(o, key.2);
      var updatedAt := o.updatedAt;
      if updatedAt == "" && o.today.Some? {
        updatedAt := o.today.value.updatedAt;
      }
      days.Observe(key, score, streak, if updatedAt != "" then Some(updatedAt) else None, now);
    }

    method ReconcilePreviousDay(yesterday: Key, o: Overview, now: string)
      modifies days
      ensures days.rows == Reconciled(old(days.rows), yesterday, o, now)
    {
      var cells, score := CellsOf(o), None;
      var i := 0;
      while i < |cells| && cells[i].date != yesterday.2
        invariant i <= |cells| && FindCell(cells, yesterday.2) == FindCell(cells[i..], yesterday.2)
      {
        assert cells[i..][1..] == cells[i + 1..];
        i := i + 1;
      }
      if i < |cells| {
        score := cells[i].score;
      }
      if score.None? || yesterday !in days.rows || days.rows[yesterday].status != "succeeded" {
        return;
      }
      var row := days.rows[yesterday];
      var official := Trunc(score.value);
      var confirmed := if row.confirmed.Some? then row.confirmed.value else "";
      if official > 0 && confirmed != "lit" {
        days.RecordConfirmation(yesterday, "lit", Some(official), row.streak, now);
      } else if official <= 0 && (confirmed == "" || confirmed == "lit") {
        days.RecordConfirmation(yesterday, "not_lit", Some(official), row.streak, now);
      }
    }

    method ConfirmActiveDay(key: Key, o: Overview, budget: int, now: string) returns (answer: string)
      modifies days
      ensures days.rows == Edit(old(days.rows), key, row => Confirm(row, o, key.2, budget, now))
      ensures answer == Answer(Get(old(days.rows), key), o, key.2, budget)
    {
      if key !in days.rows || days.rows[key].status != "succeeded" {
        return "skip_irrelevant";
      }
      var row := days.rows[key];
      if row.confirmed.Some? && row.confirmed.value != "" {
        return "confirmed";
      }
      var score, streak := OfficialPair(o, key.2);
      var lit := TodayLit(o, key.2);
      if lit {
        days.RecordConfirmation(key, "lit", score, streak, now);
        return "lit";
      }
      if row.confirmAttempts + 1 >= budget {
        days.RecordConfirmation(key, "not_lit", score, streak, now);
        return "not_lit";
      }
      days.RecordConfirmation(key, "", score, streak, now);
      return "pending";
    }
  }
}
