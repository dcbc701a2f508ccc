/** The event grammar an Anthropic client parses, and when the converter keeps to it. */
module Grammar {
  import opened Chunks
  import opened Converter

  /** How far a client has parsed; `Broken` is final. */
  datatype Phase =
    | Begin
    | Open(kinds: seq<Kind>)
    | Closing(count: nat, closed: nat)
    | Told
    | Ended
    | Broken

  predicate Fits(kind: Kind, part: Part) {
    match part
    case TextPart(_) => kind.TextBlock?
    case ThinkingPart(_) => kind.ThinkingBlock?
    case JsonPart(_) => kind.ToolBlock?
  }

  function Accept(p: Phase, e: Event): Phase {
    match e
    case MessageStart => if p.Begin? then Open([]) else Broken
    case BlockStart(index, kind) => if p.Open? && index == |p.kinds| then Open(p.kinds + [kind]) else Broken
    case BlockDelta(index, part) => if p.Open? && index < |p.kinds| && Fits(p.kinds[index], part) then p else Broken
    case BlockStop(index) =>
      if p.Open? && index == 0 && p.kinds != [] then Closing(|p.kinds|, 1)
      else if p.Closing? && index == p.closed < p.count then Closing(p.count, p.closed + 1)
      else Broken
    case MessageDelta(_) =>
      if (p.Open? && p.kinds == []) || (p.Closing? && p.closed == p.count) then Told else Broken
    case MessageStop => if p.Told? then Ended else Broken
  }

  function Parse(p: Phase, events: seq<Event>): Phase {
    if events == [] then p else Accept(Parse(p, events[..|events| - 1]), events[|events| - 1])
  }

  lemma {:induction false} ParseAppend(p: Phase, a: seq<Event>, b: seq<Event>)
    ensures Parse(p, a + b) == Parse(Parse(p, a), b)
  {
    if b == [] {
      assert a + b == a;
    } else {
      assert (a + b)[..|a + b| - 1] == a + b[..|b| - 1];
      ParseAppend(p, a, b[..|b| - 1]);
    }
  }

  lemma {:induction false} BrokenStays(events: seq<Event>)
    ensures Parse(Broken, events) == Broken
  {
    if events != [] {
      BrokenStays(events[..|events| - 1]);
    }
  }

  lemma {:induction false} EndedBreaks(events: seq<Event>)
    ensures Parse(Ended, events) == if events == [] then Ended else Broken
  {
    if events != [] {
      EndedBreaks(events[..|events| - 1]);
    }
  }

  // ---- what the grammar means for the counts and the order of events ----

  function UpTo(n: nat): seq<nat> {
    if n == 0 then [] else UpTo(n - 1) + [n - 1]
  }

  function StartIndices(events: seq<Event>): seq<nat> {
    if events == [] then []
    else
      var last := events[|events| - 1];
      StartIndices(events[..|events| - 1]) + if last.BlockStart? then [last.index] else []
  }

  function StopIndices(events: seq<Event>): seq<nat> {
    if events == [] then []
    else
      var last := events[|events| - 1];
      StopIndices(events[..|events| - 1]) + if last.BlockStop? then [last.index] else []
  }

  function Count(events: seq<Event>, test: Event -> bool): nat {
    if events == [] then 0
    else Count(events[..|events| - 1], test) + if test(events[|events| - 1]) then 1 else 0
  }

  function IsStart(): Event -> bool { (e: Event) => e.MessageStart? }
  function IsDelta(): Event -> bool { (e: Event) => e.MessageDelta? }
  function IsStop(): Event -> bool { (e: Event) => e.MessageStop? }

  /**
   A fully parsed message: one opening, blocks started as 0, 1, 2, ..., stopped in the same order,
   one closing delta and one stop.
   */
  lemma {:induction false} ParsedShape(events: seq<Event>)
    ensures var p := Parse(Begin, events);
            !p.Broken? ==>
              && Count(events, IsStart()) == (if p.Begin? then 0 else 1)
              && Count(events, IsDelta()) == (if p.Told? || p.Ended? then 1 else 0)
              && Count(events, IsStop()) == (if p.Ended? then 1 else 0)
              && StartIndices(events) == UpTo(|StartIndices(events)|)
              && StopIndices(events) == UpTo(|StopIndices(events)|)
              && (p.Begin? || p.Open? ==> StopIndices(events) == [])
              && (p.Begin? ==> StartIndices(events) == [])
              && (p.Open? ==> |StartIndices(events)| == |p.kinds|)
              && (p.Closing? ==> |StartIndices(events)| == p.count && |StopIndices(events)| == p.closed <= p.count)
              && (p.Told? || p.Ended? ==> StopIndices(events) == StartIndices(events))
  {
    if events != [] {
      ParsedShape(events[..|events| - 1]);
    }
  }

  // ---- which inputs keep to it ----

  /** What a reader of the input knows: the tool indices seen, whether it ended, whether it kept order. */
  datatype Reading = Reading(seen: set<int>, stopped: bool, orderly: bool)

  const NOTHING_READ := Reading({}, false, true)

  function Slots(calls: seq<Call>): set<int> {
    set c | c in calls :: Slot(c)
  }

  predicate AllQuiet(calls: seq<Call>, seen: set<int>) {
    forall c :: c in calls ==> Slot(c) in seen && c.arguments == ""
  }

  /** A delta that carries nothing new: no text, and only empty fragments of known tools. */
  predicate Silent(delta: Delta, seen: set<int>) {
    delta.content == "" && delta.reasoning == "" && AllQuiet(delta.calls, seen)
  }

  function ReadChunk(r: Reading, chunk: Chunk): Reading {
    Reading(r.seen + Slots(DeltaOf(chunk).calls), r.stopped || FinishOf(chunk) != "",
            r.orderly && (r.stopped ==> Silent(DeltaOf(chunk), r.seen)))
  }

  function ReadLines(r: Reading, lines: seq<Line>): Reading
    decreases |lines|
  {
    if lines == [] then r
    else
      match lines[0]
      case Done => r.(stopped := true)
      case Skipped => ReadLines(r, lines[1..])
      case Data(chunk) => ReadLines(ReadChunk(r, chunk), lines[1..])
  }

  /** Nothing content-bearing arrives once a finish reason or the terminal marker has. */
  function ReadFrames(r: Reading, frames: seq<seq<Line>>): Reading {
    if frames == [] then r else ReadLines(ReadFrames(r, frames[..|frames| - 1]), frames[|frames| - 1])
  }

  // ---- converter state, parser phase and reading move together ----

  ghost predicate Placed(c: State, kinds: seq<Kind>) {
    && |kinds| == c.next && c.active == UpTo(c.next)
    && (c.text.Some? ==> c.text.value < c.next && kinds[c.text.value].TextBlock?)
    && (c.thinking.Some? ==> c.thinking.value < c.next && kinds[c.thinking.value].ThinkingBlock?)
    && (forall i :: i in c.tools ==> c.tools[i] < c.next && kinds[c.tools[i]].ToolBlock?)
  }

  ghost predicate Synced(c: State, p: Phase) {
    if !c.started then c == FRESH && p.Begin?
    else if c.stopped then p.Ended?
    else p.Open? && Placed(c, p.kinds)
  }

  ghost predicate Tracks(c: State, p: Phase, r: Reading) {
    && r.seen == c.tools.Keys && r.stopped == c.stopped
    && if r.orderly then Synced(c, p) else c.started && p.Broken?
  }

  lemma ParseOne(p: Phase, e: Event)
    ensures Parse(p, [e]) == Accept(p, e)
  {
    assert [e][..0] == [];
    assert Parse(p, []) == p;
  }

  lemma ParseTwo(p: Phase, e: Event, f: Event)
    ensures Parse(p, [e, f]) == Accept(Accept(p, e), f)
  {
    assert [e, f] == [e] + [f];
    ParseAppend(p, [e], [f]);
    ParseOne(p, e);
    ParseOne(Accept(p, e), f);
  }

  lemma ThinkParses(c: State, p: Phase, text: string)
    requires c.started && !c.stopped && Synced(c, p)
    ensures Synced(Think(c, text).0, Parse(p, Think(c, text).1))
    ensures Think(c, text).0.started && !Think(c, text).0.stopped && Think(c, text).0.tools == c.tools
  {
    if c.thinking.Some? {
      ParseOne(p, BlockDelta(c.thinking.value, ThinkingPart(text)));
    } else {
      ParseTwo(p, BlockStart(c.next, ThinkingBlock), BlockDelta(c.next, ThinkingPart(text)));
    }
  }

  lemma SpeakParses(c: State, p: Phase, text: string)
    requires c.started && !c.stopped && Synced(c, p)
    ensures Synced(Speak(c, text).0, Parse(p, Speak(c, text).1))
    ensures Speak(c, text).0.started && !Speak(c, text).0.stopped && Speak(c, text).0.tools == c.tools
  {
    if c.text.Some? {
      ParseOne(p, BlockDelta(c.text.value, TextPart(text)));
    } else {
      ParseTwo(p, BlockStart(c.next, TextBlock), BlockDelta(c.next, TextPart(text)));
    }
  }

  lemma ToolParses(c: State, p: Phase, call: Call)
    requires c.started && !c.stopped && Synced(c, p)
    ensures Synced(Tool(c, call).0, Parse(p, Tool(c, call).1))
    ensures Tool(c, call).0.started && !Tool(c, call).0.stopped
              && Tool(c, call).0.tools.Keys == c.tools.Keys + {Slot(call)}
  {
    var events := Tool(c, call).1;
    if Slot(call) in c.tools {
      if call.arguments != "" {
        ParseOne(p, BlockDelta(c.tools[Slot(call)], JsonPart(call.arguments)));
      }
    } else {
      var opening := BlockStart(c.next, Opening(call));
      if call.arguments != "" {
        assert events == [opening, BlockDelta(c.next, JsonPart(call.arguments))];
        ParseTwo(p, opening, BlockDelta(c.next, JsonPart(call.arguments)));
      } else {
        assert events == [opening];
        ParseOne(p, opening);
      }
    }
  }

  lemma NoSlots()
    ensures Slots([]) == {}
  {
  }

  lemma MoreSlots(calls: seq<Call>)
    requires calls != []
    ensures Slots(calls) == Slots(calls[..|calls| - 1]) + {Slot(calls[|calls| - 1])}
  {
    assert calls == calls[..|calls| - 1] + [calls[|calls| - 1]];
  }

  lemma {:induction false} ToolRunParses(c: State, p: Phase, calls: seq<Call>)
    requires c.started && !c.stopped && Synced(c, p)
    ensures var (after, events) := ToolRun(c, calls);
            && Synced(after, Parse(p, events)) && after.started && !after.stopped
            && after.tools.Keys == c.tools.Keys + Slots(calls)
  {
    hide Synced, Tool, Slots;
    if calls == [] {
      NoSlots();
    } else {
      var front, last := calls[..|calls| - 1], calls[|calls| - 1];
      MoreSlots(calls);
      ToolRunParses(c, p, front);
      var (before, events) := ToolRun(c, front);
      ToolParses(before, Parse(p, events), last);
      ParseAppend(p, events, Tool(before, last).1);
    }
  }

  lemma DeltaParses(c: State, p: Phase, delta: Delta)
    requires c.started && !c.stopped && Synced(c, p)
    ensures var (after, events) := ProcessDelta(c, delta);
            && Synced(after, Parse(p, events)) && after.started && !after.stopped
            && after.tools.Keys == c.tools.Keys + Slots(delta.calls)
  {
    hide Synced, Think, Speak, ToolRun;
    var (c1, thought) := ThinkIf(c, delta.reasoning);
    if delta.reasoning != "" {
      ThinkParses(c, p, delta.reasoning);
    }
    var p1 := Parse(p, thought);
    var (c2, said) := SpeakIf(c1, delta.content);
    if delta.content != "" {
      SpeakParses(c1, p1, delta.content);
    }
    ParseAppend(p, thought, said);
    ToolRunParses(c2, Parse(p1, said), delta.calls);
    ParseAppend(p, thought + said, ToolRun(c2, delta.calls).1);
  }

  lemma {:induction false} StopsParse(kinds: seq<Kind>, n: nat)
    requires n <= |kinds|
    ensures Parse(Open(kinds), Stops(UpTo(n))) == if n == 0 then Open(kinds) else Closing(|kinds|, n)
  {
    if n > 0 {
      StopsParse(kinds, n - 1);
      assert UpTo(n)[..|UpTo(n)| - 1] == UpTo(n - 1);
    }
  }

  lemma StopParses(c: State, p: Phase, reason: string)
    requires c.started && !c.stopped && Synced(c, p)
    ensures var (after, events) := Stop(c, reason);
            Parse(p, events) == Ended && after.started && after.stopped && after.tools == c.tools
  {
    StopsParse(p.kinds, c.next);
    var told := MessageDelta(if reason == "" then "end_turn" else reason);
    var stops := Stops(c.active);
    assert Stop(c, reason).1 == stops + [told, MessageStop];
    ParseAppend(p, stops, [told, MessageStop]);
    ParseTwo(Parse(p, stops), told, MessageStop);
  }

  // ---- after the end ----

  lemma QuietTool(c: State, call: Call)
    ensures var (after, events) := Tool(c, call);
            && (events == [] <==> Slot(call) in c.tools && call.arguments == "")
            && after.tools.Keys == c.tools.Keys + {Slot(call)}
            && after.started == c.started && after.stopped == c.stopped
            && (events == [] ==> after == c)
  {
  }

  lemma {:induction false} QuietTools(c: State, calls: seq<Call>)
    ensures var (after, events) := ToolRun(c, calls);
            && (events == [] <==> AllQuiet(calls, c.tools.Keys))
            && after.tools.Keys == c.tools.Keys + Slots(calls)
            && after.started == c.started && after.stopped == c.stopped
            && (events == [] ==> after == c)
  {
    hide Tool;
    if calls != [] {
      var front, last := calls[..|calls| - 1], calls[|calls| - 1];
      assert calls == front + [last];
      QuietTools(c, front);
      var (before, events) := ToolRun(c, front);
      var more := Tool(before, last).1;
      QuietTool(before, last);
      MoreSlots(calls);
      assert |events + more| == |events| + |more|;
      assert AllQuiet(calls, c.tools.Keys) <==>
        AllQuiet(front, c.tools.Keys) && Slot(last) in c.tools.Keys && last.arguments == "";
      hide AllQuiet;
    }
  }

  lemma QuietText(c: State, text: string)
    ensures ThinkIf(c, text).1 == [] <==> text == ""
    ensures SpeakIf(c, text).1 == [] <==> text == ""
    ensures var t := ThinkIf(c, text).0; t.tools == c.tools && t.started == c.started && t.stopped == c.stopped
    ensures var t := SpeakIf(c, text).0; t.tools == c.tools && t.started == c.started && t.stopped == c.stopped
  {
  }

  lemma QuietDelta(c: State, delta: Delta)
    ensures var (after, events) := ProcessDelta(c, delta);
            && (events == [] <==> Silent(delta, c.tools.Keys))
            && after.tools.Keys == c.tools.Keys + Slots(delta.calls)
            && after.started == c.started && after.stopped == c.stopped
  {
    hide ToolRun, ThinkIf, SpeakIf, AllQuiet;
    var (c1, thought) := ThinkIf(c, delta.reasoning);
    var (c2, said) := SpeakIf(c1, delta.content);
    QuietText(c, delta.reasoning);
    QuietText(c1, delta.content);
    QuietTools(c2, delta.calls);
    var called := ToolRun(c2, delta.calls).1;
    assert |thought + said + called| == |thought| + |said| + |called|;
  }

  // ---- whole streams ----

  lemma ChunkTracks(c: State, p: Phase, r: Reading, chunk: Chunk)
    requires c.started && Tracks(c, p, r)
    ensures var (after, events) := ProcessChunk(c, chunk);
            after.started && Tracks(after, Parse(p, events), ReadChunk(r, chunk))
  {
    hide ProcessDelta, Placed;
    var (c1, events) := ProcessDelta(c, DeltaOf(chunk));
    QuietDelta(c, DeltaOf(chunk));
    var p1 := Parse(p, events);
    if !r.orderly {
      BrokenStays(events);
    } else if c.stopped {
      EndedBreaks(events);
    } else {
      DeltaParses(c, p, DeltaOf(chunk));
    }
    if FinishOf(chunk) != "" {
      var closing := Stop(c1, MapFinish(FinishOf(chunk))).1;
      ParseAppend(p, events, closing);
      if !ReadChunk(r, chunk).orderly {
        BrokenStays(closing);
      } else if !c1.stopped {
        StopParses(c1, p1, MapFinish(FinishOf(chunk)));
      }
    }
  }

  lemma {:induction false} LinesTrack(c: State, p: Phase, r: Reading, lines: seq<Line>)
    requires c.started && Tracks(c, p, r)
    ensures var (after, events) := Lines(c, lines);
            after.started && Tracks(after, Parse(p, events), ReadLines(r, lines))
    decreases |lines|
  {
    hide ProcessChunk, ReadChunk, Placed;
    if lines != [] {
      match lines[0]
      case Done =>
        var events := Stop(c, "end_turn").1;
        if !r.orderly {
          BrokenStays(events);
        } else if !c.stopped {
          StopParses(c, p, "end_turn");
        }
      case Skipped =>
        LinesTrack(c, p, r, lines[1..]);
      case Data(chunk) =>
        ChunkTracks(c, p, r, chunk);
        var (c1, events) := ProcessChunk(c, chunk);
        LinesTrack(c1, Parse(p, events), ReadChunk(r, chunk), lines[1..]);
        ParseAppend(p, events, Lines(c1, lines[1..]).1);
    }
  }

  lemma FrameTracks(c: State, p: Phase, r: Reading, frame: seq<Line>)
    requires Tracks(c, p, r)
    ensures var (after, events) := Consume(c, frame);
            after.started && Tracks(after, Parse(p, events), ReadLines(r, frame))
  {
    hide Lines, ReadLines;
    var (c1, opening) := Start(c);
    if !c.started {
      ParseOne(p, MessageStart);
    }
    var p1 := Parse(p, opening);
    assert Tracks(c1, p1, r);
    LinesTrack(c1, p1, r, frame);
    ParseAppend(p, opening, Lines(c1, frame).1);
  }

  lemma {:induction false} StreamTracks(frames: seq<seq<Line>>)
    ensures var (after, events) := Feed(FRESH, frames);
            Tracks(after, Parse(Begin, events), ReadFrames(NOTHING_READ, frames))
  {
    if frames != [] {
      var front, last := frames[..|frames| - 1], frames[|frames| - 1];
      StreamTracks(front);
      var (before, events) := Feed(FRESH, front);
      hide Consume, ReadLines, Tracks;
      FrameTracks(before, Parse(Begin, events), ReadFrames(NOTHING_READ, front), last);
      ParseAppend(Begin, events, Consume(before, last).1);
    }
  }

  /**
   The stream stays grammatical exactly when nothing content-bearing follows the finish, and it is
   a complete message exactly when, besides, a finish reason or the terminal marker arrived (either
   or both, any number of times).
   */
  lemma StreamGrammar(frames: seq<seq<Line>>)
    ensures var p := Parse(Begin, Feed(FRESH, frames).1);
            var r := ReadFrames(NOTHING_READ, frames);
            && (p != Broken <==> r.orderly)
            && (p == Ended <==> r.orderly && r.stopped)
  {
    StreamTracks(frames);
  }

  /** The converter really does emit a delta behind the end when one arrives late. */
  lemma LateContentBreaks()
    ensures var late := [[Done], [Data(Chunk(Some(Choice(Some(Delta("x", "", [])), ""))))]];
            Parse(Begin, Feed(FRESH, late).1) == Broken
  {
    var frame := [Data(Chunk(Some(Choice(Some(Delta("x", "", [])), ""))))];
    var late := [[Done], frame];
    StreamGrammar(late);
    assert late[..1] == [[Done]] && [[Done]][..0] == [];
    assert ReadFrames(NOTHING_READ, []) == NOTHING_READ;
    var r := ReadFrames(NOTHING_READ, [[Done]]);
    assert r == NOTHING_READ.(stopped := true);
    assert ReadLines(r, frame) == ReadLines(ReadChunk(r, frame[0].chunk), []);
  }
}
