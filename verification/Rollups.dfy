/** The nested minute, day and month rollups, and what they preserve of the events. */
module Rollups {
  import opened Chunks
  import opened Defaults
  import opened Sorting
  import opened Seqs
  import opened Timestamps
  import opened Percentiles
  import Lex

  datatype Event = Event(startedAt: string, provider: string, account: string, model: string, status: string,
                         input: Option<int>, output: Option<int>, latency: Option<int>, firstToken: Option<int>)

  // ---- the windows of an instant ----

  datatype Window = Window(kind: string, start: Moment, end: Moment)

  function MonthStart(m: Moment): Moment {
    Moment(m.year, m.month, 1, 0, 0, 0)
  }

  function NextMonth(m: Moment): Moment {
    if m.month < 12 then Moment(m.year, m.month + 1, 1, 0, 0, 0) else Moment(m.year + 1, 1, 1, 0, 0, 0)
  }

  function NextDay(m: Moment): Moment {
    if m.day < DaysIn(m.year, m.month) then Moment(m.year, m.month, m.day + 1, 0, 0, 0) else NextMonth(m)
  }

  function NextMinute(m: Moment): Moment {
    if m.minute < 59 then Moment(m.year, m.month, m.day, m.hour, m.minute + 1, 0)
    else if m.hour < 23 then Moment(m.year, m.month, m.day, m.hour + 1, 0, 0)
    else NextDay(m)
  }

  function MinuteWindow(now: Moment): Window {
    Window("minute", now.(second := 0), NextMinute(now))
  }

  function DayWindow(now: Moment): Window {
    Window("day", now.(hour := 0, minute := 0, second := 0), NextDay(now))
  }

  function MonthWindow(now: Moment): Window {
    Window("month", MonthStart(now), NextMonth(now))
  }

  function Windows(now: Moment): seq<Window> {
    [MinuteWindow(now), DayWindow(now), MonthWindow(now)]
  }

  predicate Holds(w: Window, m: Moment) {
    !Before(m, w.start) && Before(m, w.end)
  }

  /** Each window holds exactly the moments that share its calendar fields with `now`. */
  lemma WindowsAreCalendar(now: Moment, m: Moment)
    requires Valid(now) && Valid(m)
    ensures Holds(MonthWindow(now), m) <==> m.year == now.year && m.month == now.month
    ensures Holds(DayWindow(now), m) <==> m.year == now.year && m.month == now.month && m.day == now.day
    ensures Holds(MinuteWindow(now), m) <==>
              m.year == now.year && m.month == now.month && m.day == now.day && m.hour == now.hour
                && m.minute == now.minute
  {
    hide DaysIn;
    if m.year == now.year && m.month == now.month {
      DaysAtMost(m, now);
    }
  }

  lemma DaysAtMost(m: Moment, now: Moment)
    requires Valid(now) && Valid(m) && m.year == now.year && m.month == now.month
    ensures m.day <= DaysIn(now.year, now.month)
  {
  }

  /** A moment whose fields have a printed form. */
  predicate Printable(m: Moment) {
    m.year < 100000 && m.month < 100 && m.day < 100 && m.hour < 100 && m.minute < 100 && m.second < 100
  }

  predicate Readable(w: Window) {
    Printable(w.start) && Printable(w.end)
  }

  /** The range test of the query and of the filter alike: strings, not moments. */
  predicate InRange(s: string, from: string, to: string) {
    !Lex.Less(s, from) && Lex.Less(s, to)
  }

  function Within(w: Window): Event -> bool
    requires Readable(w)
  {
    (e: Event) => InRange(e.startedAt, FormatISO(w.start), FormatISO(w.end))
  }

  function EventsBetween(events: seq<Event>, w: Window): seq<Event>
    requires Readable(w)
  {
    Filter(events, Within(w))
  }

  lemma WindowsAreReadable(now: Moment)
    requires Valid(now)
    ensures forall w :: w in Windows(now) ==> Readable(w)
  {
  }

  /** All that can be lost: the last month of the last four-digit year, but for its very last minute. */
  predicate LastMonth(now: Moment) {
    now.year == 9999 && now.month == 12 && !(now.day == 31 && now.hour == 23 && now.minute == 59)
  }

  /** Every window the month window contains by calendar is contained by string order too. */
  lemma WindowsNest(now: Moment, w: Window, s: string)
    requires Valid(now) && !LastMonth(now) && w in Windows(now) && Readable(w) && Readable(MonthWindow(now))
    requires InRange(s, FormatISO(w.start), FormatISO(w.end))
    ensures InRange(s, FormatISO(MonthWindow(now).start), FormatISO(MonthWindow(now).end))
  {
    var month := MonthWindow(now);
    StartsNest(now, w);
    Lex.AtMostTransitive(FormatISO(month.start), FormatISO(w.start), s);
    if w.end == month.end {
    } else {
      EndsNest(now, w);
      Lex.LessThenAtMost(s, FormatISO(w.end), FormatISO(month.end));
    }
  }

  lemma StartsNest(now: Moment, w: Window)
    requires Valid(now) && w in Windows(now) && Readable(w)
    ensures Valid(MonthStart(now)) && Lex.AtMost(FormatISO(MonthStart(now)), FormatISO(w.start))
  {
    assert Valid(w.start);
    hide FormatISO, Lex.Less;
    FormatKeepsOrder(w.start, MonthStart(now));
  }

  lemma EndsNest(now: Moment, w: Window)
    requires Valid(now) && !LastMonth(now) && w in Windows(now) && Readable(w) && w.end != NextMonth(now)
    ensures Readable(MonthWindow(now)) && Lex.AtMost(FormatISO(w.end), FormatISO(NextMonth(now)))
  {
    var end := NextMonth(now);
    assert Valid(w.end) && Valid(end);
    hide FormatISO, Lex.Less;
    FormatKeepsOrder(end, w.end);
  }

  /** Filtering the one month read gives what reading each window by itself would give. */
  lemma OneReadIsEnough(events: seq<Event>, now: Moment, w: Window)
    requires Valid(now) && !LastMonth(now) && w in Windows(now) && Readable(w) && Readable(MonthWindow(now))
    ensures EventsBetween(EventsBetween(events, MonthWindow(now)), w) == EventsBetween(events, w)
  {
    var month := MonthWindow(now);
    hide Filter, FormatISO, MonthWindow, Windows, InRange;
    FilterTwice(events, Within(month), Within(w));
    forall e | e in events ensures Both(Within(month), Within(w))(e) == Within(w)(e) {
      if Within(w)(e) {
        WindowsNest(now, w, e.startedAt);
      }
    }
    FilterSame(events, Both(Within(month), Within(w)), Within(w));
  }

  /** In December 9999 the month ends in a year that sorts first, and its read finds nothing at all. */
  lemma LastMonthLosesMinutes(now: Moment, e: Event)
    requires Valid(now) && LastMonth(now) && e.startedAt == FormatISO(MinuteWindow(now).start)
    ensures Readable(MinuteWindow(now)) && Readable(MonthWindow(now))
    ensures EventsBetween([e], MinuteWindow(now)) == [e]
    ensures EventsBetween(EventsBetween([e], MonthWindow(now)), MinuteWindow(now)) == []
  {
    var minute, month := MinuteWindow(now), MonthWindow(now);
    MinuteHolds(now);
    MonthIsEmpty(now);
    hide *;
    FilterOne(e, Within(minute));
    FilterOne(e, Within(month));
    NoEvents(minute);
    RangeOf(e, minute);
    RangeOf(e, month);
    ReadOf([e], month);
    ReadOf([e], minute);
    ReadOf([], minute);
  }

  lemma ReadOf(events: seq<Event>, w: Window)
    requires Readable(w)
    ensures EventsBetween(events, w) == Filter(events, Within(w))
  {
  }

  lemma RangeOf(e: Event, w: Window)
    requires Readable(w)
    ensures Within(w)(e) <==> InRange(e.startedAt, FormatISO(w.start), FormatISO(w.end))
  {
  }

  lemma NoEvents(w: Window)
    requires Readable(w)
    ensures Filter([], Within(w)) == []
  {
  }

  lemma MinuteHolds(now: Moment)
    requires Valid(now) && LastMonth(now)
    ensures var w := MinuteWindow(now); Readable(w) && InRange(FormatISO(w.start), FormatISO(w.start), FormatISO(w.end))
  {
    var w := MinuteWindow(now);
    assert Valid(w.start) && Valid(w.end) && Before(w.start, w.end);
    hide FormatISO, Lex.Less;
    FormatKeepsOrder(w.start, w.end);
    Lex.Irreflexive(FormatISO(w.start));
  }

  lemma MonthIsEmpty(now: Moment)
    requires Valid(now) && LastMonth(now)
    ensures Readable(MonthWindow(now)) && Readable(MinuteWindow(now))
    ensures !InRange(FormatISO(MinuteWindow(now).start), FormatISO(MonthWindow(now).start),
                     FormatISO(MonthWindow(now).end))
  {
    var start, end := MinuteWindow(now).start, MonthWindow(now).end;
    assert Valid(start) && end == Moment(10000, 1, 1, 0, 0, 0);
    hide FormatISO, Lex.Less;
    YearTenThousandSortsFirst(start, end);
    Lex.Irreflexive(FormatISO(start));
    if Lex.Less(FormatISO(start), FormatISO(end)) {
      Lex.Transitive(FormatISO(start), FormatISO(end), FormatISO(start));
    }
  }

  /** The shared read is right for every table of events exactly outside that month. */
  lemma OneReadIsEnoughIff(now: Moment)
    requires Valid(now)
    ensures WindowsAgree(now) <==> !LastMonth(now)
  {
    WindowsAreReadable(now);
    if LastMonth(now) {
      var e := Event(FormatISO(MinuteWindow(now).start), "", "", "", "", None, None, None, None);
      LastMonthLosesMinutes(now, e);
      assert MinuteWindow(now) in Windows(now);
      hide FormatISO, Within;
      assert !Agrees([e], now, MinuteWindow(now));
    } else {
      forall events: seq<Event>, w: Window | w in Windows(now) ensures Agrees(events, now, w) {
        OneReadIsEnough(events, now, w);
      }
    }
  }

  ghost predicate Agrees(events: seq<Event>, now: Moment, w: Window) {
    Readable(w) && Readable(MonthWindow(now))
      && EventsBetween(EventsBetween(events, MonthWindow(now)), w) == EventsBetween(events, w)
  }

  ghost predicate WindowsAgree(now: Moment) {
    forall events: seq<Event>, w: Window :: w in Windows(now) ==> Agrees(events, now, w)
  }

  // ---- one window's rollups ----

  datatype GroupKey = GroupKey(provider: string, account: string, model: string)

  datatype Rollup = Rollup(
    bucketStart: string, kind: string, key: GroupKey, requests: nat, successes: nat, errors: nat,
    tokenEvents: nat, missing: nat, input: int, output: int,
    latencyP50: Option<int>, latencyP95: Option<int>, latencyAvg: Option<int>, ttftAvg: Option<int>,
      ttftP95: Option<int>)

  function KeyOf(e: Event): GroupKey {
    GroupKey(OrDefault(e.provider, "unknown"), e.account, OrDefault(e.model, "unknown"))
  }

  function HasKey(key: GroupKey): Event -> bool {
    (e: Event) => KeyOf(e) == key
  }

  function RowsOf(events: seq<Event>, key: GroupKey): seq<Event> {
    Filter(events, HasKey(key))
  }

  /** The group keys in the order in which they first occur. */
  function KeysOf(events: seq<Event>): seq<GroupKey> {
    if events == [] then []
    else
      var before, key := KeysOf(events[..|events| - 1]), KeyOf(events[|events| - 1]);
      if key in before then before else before + [key]
  }

  /** A sum over events; every counter of a rollup is one. */
  function Weigh(events: seq<Event>, weight: Event -> int): int {
    if events == [] then 0 else Weigh(events[..|events| - 1], weight) + weight(events[|events| - 1])
  }

  function One(): Event -> int { (e: Event) => 1 }

  function Success(): Event -> int { (e: Event) => if e.status == "succeeded" then 1 else 0 }

  function Cancelled(): Event -> int { (e: Event) => if e.status == "cancelled" then 1 else 0 }

  function Failure(): Event -> int { (e: Event) => if e.status != "succeeded" && e.status != "cancelled" then 1 else 0 }

  function HasTokens(): Event -> int { (e: Event) => if e.input.Some? || e.output.Some? then 1 else 0 }

  function NoTokens(): Event -> int { (e: Event) => if e.input.None? && e.output.None? then 1 else 0 }

  function Input(): Event -> int { (e: Event) => if e.input.Some? then e.input.value else 0 }

  function Output(): Event -> int { (e: Event) => if e.output.Some? then e.output.value else 0 }

  function Latencies(events: seq<Event>): seq<int> {
    if events == [] then []
    else Latencies(events[..|events| - 1]) + if events[|events| - 1].latency.Some?
      then [events[|events| - 1].latency.value] else []
  }

  function FirstTokens(events: seq<Event>): seq<int> {
    if events == [] then []
    else FirstTokens(events[..|events| - 1]) + if events[|events| - 1].firstToken.Some?
      then [events[|events| - 1].firstToken.value] else []
  }

  function SumOf(values: seq<int>): int {
    if values == [] then 0 else SumOf(values[..|values| - 1]) + values[|values| - 1]
  }

  /** Integer division drops the fraction. */
  function Quotient(a: int, n: nat): int
    requires n > 0
  {
    if a >= 0 then a / n else -(-a / n)
  }

  /** The numbers of one group, apart from its names. */
  ghost predicate Summarises(r: Rollup, rows: seq<Event>) {
    var latencies, ttfts := Latencies(rows), FirstTokens(rows);
    && r.requests == |rows| && r.successes == Weigh(rows, Success()) && r.errors == Weigh(rows, Failure())
    && r.tokenEvents == Weigh(rows, HasTokens()) && r.missing == Weigh(rows, NoTokens())
    && r.input == Weigh(rows, Input()) && r.output == Weigh(rows, Output())
    && r.latencyP50 == (if latencies == [] then None else Some(Rounded(Ordered(latencies), 0.5)))
    && r.latencyP95 == (if latencies == [] then None else Some(Rounded(Ordered(latencies), 0.95)))
    && r.latencyAvg == (if latencies == [] then None else Some(Quotient(SumOf(Ordered(latencies)), |latencies|)))
    && r.ttftAvg == (if ttfts == [] then None else Some(Quotient(SumOf(Ordered(ttfts)), |ttfts|)))
    && r.ttftP95 == (if ttfts == [] then None else Some(Rounded(Ordered(ttfts), 0.95)))
  }

  /** One rollup for each group, in the order of first occurrence. */
  ghost predicate Aggregated(events: seq<Event>, w: Window, out: seq<Rollup>)
    requires Readable(w)
  {
    && |out| == |KeysOf(events)|
    && forall i :: 0 <= i < |out| ==>
         out[i].bucketStart == FormatISO(w.start) && out[i].kind == w.kind && out[i].key == KeysOf(events)[i]
         && Summarises(out[i], RowsOf(events, out[i].key))
  }

  lemma {:induction false} KeysAreDistinct(events: seq<Event>)
    ensures Distinct(KeysOf(events)) && forall key :: key in KeysOf(events) <==>
              exists e :: e in events && KeyOf(e) == key
  {
    if events != [] {
      var front, last := events[..|events| - 1], events[|events| - 1];
      KeysAreDistinct(front);
      assert events == front + [last];
      forall key ensures key in KeysOf(events) <==> exists e :: e in events && KeyOf(e) == key {
        if exists e :: e in events && KeyOf(e) == key {
          var e :| e in events && KeyOf(e) == key;
          assert e in front || e == last;
        }
        if key in KeysOf(front) {
          var e :| e in front && KeyOf(e) == key;
          assert e in events;
        }
        assert last in events;
      }
    }
  }

  lemma {:induction false} WeighAppend(events: seq<Event>, more: seq<Event>, weight: Event -> int)
    ensures Weigh(events + more, weight) == Weigh(events, weight) + Weigh(more, weight)
  {
    if more == [] {
      assert events + more == events;
    } else {
      assert (events + more)[..|events + more| - 1] == events + more[..|more| - 1];
      WeighAppend(events, more[..|more| - 1], weight);
    }
  }

  /** The sum over the groups of what each group weighs. */
  function GroupTotal(events: seq<Event>, keys: seq<GroupKey>, weight: Event -> int): int {
    if keys == [] then 0
    else GroupTotal(events, keys[..|keys| - 1], weight) + Weigh(RowsOf(events, keys[|keys| - 1]), weight)
  }

  lemma RowsGrow(events: seq<Event>, e: Event, key: GroupKey, weight: Event -> int)
    ensures Weigh(RowsOf(events + [e], key), weight) == Weigh(RowsOf(events, key), weight) + if KeyOf(e) == key
              then weight(e) else 0
  {
    hide Filter, Weigh, KeyOf;
    FilterAppend(events, [e], HasKey(key));
    FilterOne(e, HasKey(key));
    WeighAppend(RowsOf(events, key), Filter([e], HasKey(key)), weight);
    WeighOne(e, weight);
    NoWeight(weight);
  }

  lemma WeighOne(e: Event, weight: Event -> int)
    ensures Weigh([e], weight) == weight(e)
  {
    assert [e][..0] == [];
  }

  lemma NoWeight(weight: Event -> int)
    ensures Weigh([], weight) == 0
  {
  }

  lemma {:induction false} GroupTotalGrows(events: seq<Event>, e: Event, keys: seq<GroupKey>, weight: Event -> int)
    requires Distinct(keys)
    ensures GroupTotal(events + [e], keys, weight) == GroupTotal(events, keys, weight) + if KeyOf(e) in keys
              then weight(e) else 0
  {
    if keys != [] {
      var front, last := keys[..|keys| - 1], keys[|keys| - 1];
      hide RowsOf, Weigh, KeyOf;
      GroupTotalGrows(events, e, front, weight);
      RowsGrow(events, e, last, weight);
      assert keys == front + [last];
    }
  }

  /** The groups partition the events: whatever is summed over events is the same summed over groups. */
  lemma {:induction false} GroupsPartition(events: seq<Event>, weight: Event -> int)
    ensures GroupTotal(events, KeysOf(events), weight) == Weigh(events, weight)
  {
    if events != [] {
      var front, last := events[..|events| - 1], events[|events| - 1];
      assert events == front + [last];
      GroupsPartition(front, weight);
      KeysAreDistinct(front);
      var before := KeysOf(front);
      hide RowsOf, Weigh, KeyOf;
      GroupTotalGrows(front, last, before, weight);
      if KeyOf(last) !in before {
        RowsGrow(front, last, KeyOf(last), weight);
        NoRows(front, KeyOf(last), weight);
        assert (before + [KeyOf(last)])[..|before|] == before;
      }
      WeighAppend(front, [last], weight);
      WeighOne(last, weight);
    }
  }

  lemma NoRows(events: seq<Event>, key: GroupKey, weight: Event -> int)
    requires key !in KeysOf(events)
    ensures Weigh(RowsOf(events, key), weight) == 0
  {
    KeysAreDistinct(events);
    FilterNone(events, HasKey(key));
  }

  function Requests(): Rollup -> int { (r: Rollup) => r.requests }

  function Successes(): Rollup -> int { (r: Rollup) => r.successes }

  function Errors(): Rollup -> int { (r: Rollup) => r.errors }

  function InputSum(): Rollup -> int { (r: Rollup) => r.input }

  function OutputSum(): Rollup -> int { (r: Rollup) => r.output }

  function TokenEvents(): Rollup -> int { (r: Rollup) => r.tokenEvents }

  function Missing(): Rollup -> int { (r: Rollup) => r.missing }

  function TotalOf(out: seq<Rollup>, part: Rollup -> int): int {
    if out == [] then 0 else TotalOf(out[..|out| - 1], part) + part(out[|out| - 1])
  }

  lemma {:induction false} TotalIsGroupTotal(events: seq<Event>, out: seq<Rollup>, keys: seq<GroupKey>,
                                             part: Rollup -> int, weight: Event -> int)
    requires |out| == |keys|
    requires forall i :: 0 <= i < |out| ==> part(out[i]) == Weigh(RowsOf(events, keys[i]), weight)
    ensures TotalOf(out, part) == GroupTotal(events, keys, weight)
  {
    hide RowsOf, Weigh;
    if out != [] {
      TotalIsGroupTotal(events, out[..|out| - 1], keys[..|keys| - 1], part, weight);
    }
  }

  /** Any counter that weighs its group sums to the weight of all events. */
  lemma PartIsConserved(events: seq<Event>, w: Window, out: seq<Rollup>, part: Rollup -> int, weight: Event -> int)
    requires Readable(w) && Aggregated(events, w, out)
    requires forall i :: 0 <= i < |out| ==> part(out[i]) == Weigh(RowsOf(events, out[i].key), weight)
    ensures TotalOf(out, part) == Weigh(events, weight)
  {
    hide Summarises, RowsOf, Weigh, KeysOf;
    TotalIsGroupTotal(events, out, KeysOf(events), part, weight);
    GroupsPartition(events, weight);
  }

  /** Nothing is counted twice or lost: the sums over a window's rollups are the sums over its events. */
  lemma RollupsConserve(events: seq<Event>, w: Window, out: seq<Rollup>)
    requires Readable(w) && Aggregated(events, w, out)
    ensures TotalOf(out, Requests()) == |events|
    ensures TotalOf(out, Successes()) == Weigh(events, Success()) && TotalOf(out, Errors()) == Weigh(events, Failure())
    ensures TotalOf(out, InputSum()) == Weigh(events, Input()) && TotalOf(out, OutputSum()) == Weigh(events, Output())
    ensures TotalOf(out, TokenEvents()) == Weigh(events, HasTokens())
              && TotalOf(out, Missing()) == Weigh(events, NoTokens())
    ensures forall i, j :: 0 <= i < j < |out| ==> out[i].key != out[j].key
  {
    forall i | 0 <= i < |out| ensures out[i].requests == Weigh(RowsOf(events, out[i].key), One()) {
      WeighOnes(RowsOf(events, out[i].key));
    }
    PartIsConserved(events, w, out, Requests(), One());
    WeighOnes(events);
    KeysAreDistinct(events);
    hide RowsOf, Weigh, KeysOf;
    PartIsConserved(events, w, out, Successes(), Success());
    PartIsConserved(events, w, out, Errors(), Failure());
    PartIsConserved(events, w, out, InputSum(), Input());
    PartIsConserved(events, w, out, OutputSum(), Output());
    PartIsConserved(events, w, out, TokenEvents(), HasTokens());
    PartIsConserved(events, w, out, Missing(), NoTokens());
  }

  lemma {:induction false} WeighOnes(events: seq<Event>)
    ensures Weigh(events, One()) == |events|
  {
    if events != [] {
      WeighOnes(events[..|events| - 1]);
    }
  }

  /** In every rollup each request either succeeded, failed or was cancelled, and either carried tokens or not. */
  lemma {:induction false} CountsSplit(rows: seq<Event>)
    ensures Weigh(rows, Success()) + Weigh(rows, Failure()) + Weigh(rows, Cancelled()) == |rows|
    ensures Weigh(rows, HasTokens()) + Weigh(rows, NoTokens()) == |rows|
    ensures Weigh(rows, Success()) >= 0 && Weigh(rows, Failure()) >= 0 && Weigh(rows, Cancelled()) >= 0
    ensures Weigh(rows, HasTokens()) >= 0 && Weigh(rows, NoTokens()) >= 0
  {
    if rows != [] {
      CountsSplit(rows[..|rows| - 1]);
    }
  }

  // ---- the code that computes and stores them ----

  /** The weights of one event, all at once. */
  lemma WeighNext(rows: seq<Event>, i: nat)
    requires i < |rows|
    ensures forall weight: Event -> int :: Weigh(rows[..i + 1], weight) == Weigh(rows[..i], weight) + weight(rows[i])
    ensures Latencies(rows[..i + 1]) == Latencies(rows[..i]) + if rows[i].latency.Some? then [rows[i].latency.value]
              else []
    ensures FirstTokens(rows[..i + 1]) == FirstTokens(rows[..i]) + if rows[i].firstToken.Some?
              then [rows[i].firstToken.value] else []
  {
    assert rows[..i + 1][..i] == rows[..i];
  }

  method Tally(rows: seq<Event>) returns (successes: nat, errors: nat, tokenEvents: nat, missing: nat, input: int,
                                          output: int)
    ensures successes == Weigh(rows, Success()) && errors == Weigh(rows, Failure())
    ensures tokenEvents == Weigh(rows, HasTokens()) && missing == Weigh(rows, NoTokens())
    ensures input == Weigh(rows, Input()) && output == Weigh(rows, Output())
  {
    successes, errors, tokenEvents, missing, input, output := 0, 0, 0, 0, 0, 0;
    for i := 0 to |rows|
      invariant successes == Weigh(rows[..i], Success()) && errors == Weigh(rows[..i], Failure())
      invariant tokenEvents == Weigh(rows[..i], HasTokens()) && missing == Weigh(rows[..i], NoTokens())
      invariant input == Weigh(rows[..i], Input()) && output == Weigh(rows[..i], Output())
    {
      hide Weigh;
      WeighNext(rows, i);
      var row := rows[i];
      if row.status == "succeeded" {
        successes := successes + 1;
      } else if row.status != "cancelled" {
        errors := errors + 1;
      }
      if row.input.Some? || row.output.Some? {
        tokenEvents := tokenEvents + 1;
        if row.input.Some? {
          input := input + row.input.value;
        }
        if row.output.Some? {
          output := output + row.output.value;
        }
      } else {
        missing := missing + 1;
      }
    }
    assert rows[..|rows|] == rows;
  }

  method Timings(rows: seq<Event>) returns (latencies: seq<int>, ttfts: seq<int>)
    ensures latencies == Latencies(rows) && ttfts == FirstTokens(rows)
  {
    latencies, ttfts := [], [];
    for i := 0 to |rows|
      invariant latencies == Latencies(rows[..i]) && ttfts == FirstTokens(rows[..i])
    {
      hide Latencies, FirstTokens;
      WeighNext(rows, i);
      if rows[i].latency.Some? {
        latencies := latencies + [rows[i].latency.value];
      }
      if rows[i].firstToken.Some? {
        ttfts := ttfts + [rows[i].firstToken.value];
      }
    }
    assert rows[..|rows|] == rows;
  }

  method Summarise(rows: seq<Event>, w: Window, key: GroupKey) returns (r: Rollup)
    requires Readable(w)
    ensures r.bucketStart == FormatISO(w.start) && r.kind == w.kind && r.key == key && Summarises(r, rows)
  {
    hide Weigh, Latencies, FirstTokens, FormatISO, Ordered, Rounded, SumOf;
    var successes, errors, tokenEvents, missing, input, output := Tally(rows);
    var latencies, ttfts := Timings(rows);
    OrderedFacts(latencies);
    OrderedFacts(ttfts);
    var p50, p95, average, ttftAverage, ttft95 := None, None, None, None, None;
    if latencies != [] {
      var sorted := Ordered(latencies);
      p50, p95, average := Some(Rounded(sorted, 0.5)), Some(Rounded(sorted, 0.95)),
        Some(Quotient(SumOf(sorted), |sorted|));
    }
    if ttfts != [] {
      var sorted := Ordered(ttfts);
      ttftAverage, ttft95 := Some(Quotient(SumOf(sorted), |sorted|)), Some(Rounded(sorted, 0.95));
    }
    r := Rollup(FormatISO(w.start), w.kind, key, |rows|, successes, errors, tokenEvents, missing, input, output, p50,
                p95, average, ttftAverage, ttft95);
  }

  /** A group's median latency never exceeds its 95th percentile. */
  lemma MedianAtMostTail(r: Rollup, rows: seq<Event>)
    requires Summarises(r, rows)
    ensures r.latencyP50.Some? <==> r.latencyP95.Some?
    ensures r.latencyP50.Some? ==> r.latencyP50.value <= r.latencyP95.value
  {
    hide Rounded, Ordered, Weigh;
    PercentilesAreMonotone(Latencies(rows), 0.5, 0.95);
  }

  lemma RowsNext(events: seq<Event>, i: nat, key: GroupKey)
    requires i < |events|
    ensures RowsOf(events[..i + 1], key) == RowsOf(events[..i], key) + if KeyOf(events[i]) == key then [events[i]]
              else []
  {
    assert events[..i + 1][..i] == events[..i];
  }

  lemma KeysNext(events: seq<Event>, i: nat)
    requires i < |events|
    ensures KeysOf(events[..i + 1]) ==
              if KeyOf(events[i]) in KeysOf(events[..i]) then KeysOf(events[..i])
                else KeysOf(events[..i]) + [KeyOf(events[i])]
  {
    assert events[..i + 1][..i] == events[..i];
  }

  lemma AbsentRows(events: seq<Event>, key: GroupKey)
    requires key !in KeysOf(events)
    ensures RowsOf(events, key) == []
  {
    KeysAreDistinct(events);
    FilterNone(events, HasKey(key));
  }

  method Group(events: seq<Event>) returns (grouped: map<GroupKey, seq<Event>>, order: seq<GroupKey>)
    ensures order == KeysOf(events)
    ensures forall key :: key in grouped <==> key in order
    ensures forall key :: key in grouped ==> grouped[key] == RowsOf(events, key)
  {
    grouped, order := map[], [];
    for i := 0 to |events|
      invariant order == KeysOf(events[..i])
      invariant forall key :: key in grouped <==> key in order
      invariant forall key :: key in grouped ==> grouped[key] == RowsOf(events[..i], key)
    {
      hide RowsOf, KeysOf, KeyOf, OrDefault;
      var key := GroupKey(OrDefault(events[i].provider, "unknown"), events[i].account,
                          OrDefault(events[i].model, "unknown"));
      KeyParts(events[i]);
      KeysNext(events, i);
      forall k ensures RowsOf(events[..i + 1], k) == RowsOf(events[..i], k) + if KeyOf(events[i]) == k
        then [events[i]] else [] {
        RowsNext(events, i, k);
      }
      if key !in grouped {
        AbsentRows(events[..i], key);
        order := order + [key];
      }
      grouped := grouped[key := (if key in grouped then grouped[key] else []) + [events[i]]];
    }
    assert events[..|events|] == events;
  }

  lemma KeyParts(e: Event)
    ensures KeyOf(e) == GroupKey(OrDefault(e.provider, "unknown"), e.account, OrDefault(e.model, "unknown"))
  {
  }

  method Aggregate(events: seq<Event>, w: Window) returns (out: seq<Rollup>)
    requires Readable(w)
    ensures Aggregated(events, w, out)
  {
    hide RowsOf, KeysOf, Summarises, FormatISO;
    var grouped, order := Group(events);
    out := [];
    for i := 0 to |order|
      invariant |out| == i
      invariant forall j :: 0 <= j < i ==>
                  out[j].bucketStart == FormatISO(w.start) && out[j].kind == w.kind && out[j].key == order[j]
                    && Summarises(out[j], RowsOf(events, order[j]))
    {
      assert order[i] in order;
      var r := Summarise(grouped[order[i]], w, order[i]);
      out := out + [r];
    }
  }

  type Bucket = (string, string, GroupKey)

  function BucketOf(r: Rollup): Bucket {
    (r.bucketStart, r.kind, r.key)
  }

  function Stored(table: map<Bucket, Rollup>, out: seq<Rollup>): map<Bucket, Rollup> {
    if out == [] then table else Stored(table, out[..|out| - 1])[BucketOf(out[|out| - 1]) := out[|out| - 1]]
  }

  /** No two rollups of one window share a bucket. */
  ghost predicate Separate(out: seq<Rollup>) {
    forall i, j :: 0 <= i < j < |out| ==> BucketOf(out[i]) != BucketOf(out[j])
  }

  /** The bucket is none of these rollups'. */
  ghost predicate Untouched(out: seq<Rollup>, b: Bucket) {
    forall r :: r in out ==> BucketOf(r) != b
  }

  lemma {:induction false} StoredFacts(table: map<Bucket, Rollup>, out: seq<Rollup>)
    requires Separate(out)
    ensures forall r :: r in out ==> BucketOf(r) in Stored(table, out) && Stored(table, out)[BucketOf(r)] == r
    ensures forall b :: Untouched(out, b) ==>
              (b in Stored(table, out) <==> b in table) && (b in table ==> Stored(table, out)[b] == table[b])
  {
    if out != [] {
      var front, last := out[..|out| - 1], out[|out| - 1];
      assert out == front + [last];
      StoredFacts(table, front);
      forall r | r in front ensures BucketOf(r) != BucketOf(last) {
        var i :| 0 <= i < |front| && front[i] == r;
        assert BucketOf(out[i]) != BucketOf(out[|out| - 1]);
      }
      forall b | Untouched(out, b) ensures Untouched(front, b) && BucketOf(last) != b {
      }
    }
  }

  lemma AggregatedApart(events: seq<Event>, w: Window, out: seq<Rollup>)
    requires Readable(w) && Aggregated(events, w, out)
    ensures Separate(out) && forall r :: r in out ==> r.kind == w.kind
  {
    KeysAreDistinct(events);
    hide KeysOf, RowsOf, Summarises, FormatISO;
  }

  /**
   After a run every bucket that was rolled up holds its newest rollup, also of those that were there before, and
   every other bucket what it held.
   */
  lemma NewestIsStored(table: map<Bucket, Rollup>, events: seq<seq<Event>>, now: Moment, parts: seq<seq<Rollup>>)
    requires |events| == |parts| == 3 && Valid(now) && forall w :: w in Windows(now) ==> Readable(w)
    requires forall i :: 0 <= i < 3 ==> Aggregated(events[i], Windows(now)[i], parts[i])
    ensures var after := Stored(Stored(Stored(table, parts[0]), parts[1]), parts[2]);
            && (forall r :: r in parts[0] || r in parts[1] || r in parts[2] ==>
                 BucketOf(r) in after && after[BucketOf(r)] == r)
            && forall b :: Untouched(parts[0], b) && Untouched(parts[1], b) && Untouched(parts[2], b) ==>
                 (b in after <==> b in table) && (b in table ==> after[b] == table[b])
  {
    var windows := Windows(now);
    KindsDiffer(now);
    hide Stored, Separate, Untouched;
    AggregatedApart(events[0], windows[0], parts[0]);
    AggregatedApart(events[1], windows[1], parts[1]);
    AggregatedApart(events[2], windows[2], parts[2]);
    var a, b, c := windows[0].kind, windows[1].kind, windows[2].kind;
    assert a != b && a != c && b != c;
    hide *;
    ThreeLand(table, parts[0], parts[1], parts[2], a, b, c);
  }

  lemma ThreeLand(table: map<Bucket, Rollup>, x: seq<Rollup>, y: seq<Rollup>, z: seq<Rollup>, a: string, b: string,
                  c: string)
    requires Separate(x) && Separate(y) && Separate(z) && a != b && a != c && b != c
    requires (forall r :: r in x ==> r.kind == a) && (forall r :: r in y ==> r.kind == b)
               && forall r :: r in z ==> r.kind == c
    ensures var after := Stored(Stored(Stored(table, x), y), z);
            && (forall r :: r in x || r in y || r in z ==> BucketOf(r) in after && after[BucketOf(r)] == r)
            && forall k :: Untouched(x, k) && Untouched(y, k) && Untouched(z, k) ==>
                 (k in after <==> k in table) && (k in table ==> after[k] == table[k])
  {
    hide Stored, Separate;
    StoredFacts(table, x);
    StoredFacts(Stored(table, x), y);
    StoredFacts(Stored(Stored(table, x), y), z);
    assert forall r :: r in x ==> Untouched(y, BucketOf(r)) && Untouched(z, BucketOf(r));
    assert forall r :: r in y ==> Untouched(z, BucketOf(r));
  }

  lemma KindsDiffer(now: Moment)
    ensures forall i, j :: 0 <= i < j < 3 ==> Windows(now)[i].kind != Windows(now)[j].kind
  {
  }

  function NotBefore(cutoff: string): Event -> bool {
    (e: Event) => !Lex.Less(e.startedAt, cutoff)
  }

  /**
   Pruning makes the next rollup of a window smaller exactly when it deletes an event the window still
   covers; the month bucket is then overwritten with the smaller count.
   */
  lemma PruningShrinksIff(events: seq<Event>, cutoff: string, w: Window)
    requires Readable(w)
    ensures |EventsBetween(Filter(events, NotBefore(cutoff)), w)| <= |EventsBetween(events, w)|
    ensures (|EventsBetween(Filter(events, NotBefore(cutoff)), w)| == |EventsBetween(events, w)|)
       <==> forall e :: e in events && Within(w)(e) ==> !Lex.Less(e.startedAt, cutoff)
  {
    var keep, test := NotBefore(cutoff), Within(w);
    hide Filter, Within, Lex.Less;
    FilterTwice(events, keep, test);
    FilterTwice(events, test, keep);
    FilterSame(events, Both(keep, test), Both(test, keep));
    FilterKeepsAllIff(EventsBetween(events, w), keep);
    FilterIn(events, test);
  }

  class UsageStore {
    var events: seq<Event>
    var rollups: map<Bucket, Rollup>

    /** One read of the month feeds all three windows; outside December 9999 each gets what its own read would. */
    method RollupOnce(now: Moment, cutoff: string) returns (parts: seq<seq<Rollup>>, deleted: nat)
      requires Valid(now)
      modifies this
      ensures |parts| == 3 && Readable(MonthWindow(now)) && forall w :: w in Windows(now) ==> Readable(w)
      ensures forall i :: 0 <= i < 3 ==> Aggregated(EventsBetween(EventsBetween(old(events), MonthWindow(now)),
                                                                  Windows(now)[i]), Windows(now)[i], parts[i])
      ensures !LastMonth(now) ==> forall i :: 0 <= i < 3 ==>
                Aggregated(EventsBetween(old(events), Windows(now)[i]), Windows(now)[i], parts[i])
      ensures rollups == Stored(Stored(Stored(old(rollups), parts[0]), parts[1]), parts[2])
      ensures events == Filter(old(events), NotBefore(cutoff)) && deleted == |old(events)| - |events|
    {
      hide Aggregated, EventsBetween, NextMinute, NextDay, NextMonth, LastMonth, Valid, Stored, FormatISO;
      var windows := Windows(now);
      WindowsAreReadable(now);
      var widest := windows[2];
      assert widest in windows;
      var read := EventsBetween(events, widest);
      parts := [];
      for i := 0 to 3
        invariant |parts| == i && events == old(events) && rollups == old(rollups)
        invariant forall j :: 0 <= j < i ==> Aggregated(EventsBetween(read, windows[j]), windows[j], parts[j])
      {
        assert windows[i] in windows;
        var within := EventsBetween(read, windows[i]);
        var out := Aggregate(within, windows[i]);
        parts := parts + [out];
      }
      if !LastMonth(now) {
        forall i | 0 <= i < 3 ensures Aggregated(EventsBetween(old(events), windows[i]), windows[i], parts[i]) {
          assert windows[i] in windows;
          OneReadIsEnough(old(events), now, windows[i]);
        }
      }
      StoreAll(parts[0]);
      StoreAll(parts[1]);
      StoreAll(parts[2]);
      FilterIn(events, NotBefore(cutoff));
      var kept := Filter(events, NotBefore(cutoff));
      deleted := |events| - |kept|;
      events := kept;
    }

    method StoreAll(out: seq<Rollup>)
      modifies this`rollups
      ensures rollups == Stored(old(rollups), out)
    {
      for i := 0 to |out|
        invariant rollups == Stored(old(rollups), out[..i])
      {
        assert out[..i + 1][..i] == out[..i];
        rollups := rollups[BucketOf(out[i]) := out[i]];
      }
      assert out[..|out|] == out;
    }
  }
}
